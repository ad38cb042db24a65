/**
 * The text formatting of the bot's music slash commands (MusicModule.cs):
 * durations as "M:SS" or "H:MM:SS", one queue line per track, and the
 * "Up Next" listing capped at ten numbered entries. Durations are whole,
 * non-negative seconds.
 */
module MusicModule {

  import opened Wrappers

  /** The parts of a Lavalink track that the formatting reads. */
  datatype Track = Track(title: string, url: string, duration: nat)

  // ---------------------------------------------------------------------------
  // Decimal digits
  // ---------------------------------------------------------------------------

  predicate IsDigit(c: char)
  {
    '0' <= c <= '9'
  }

  predicate IsDigits(s: string)
  {
    forall k :: 0 <= k < |s| ==> IsDigit(s[k])
  }

  /** A decimal numeral without superfluous leading zeros. */
  predicate IsCanonical(s: string)
  {
    |s| >= 1 && IsDigits(s) && (|s| > 1 ==> s[0] != '0')
  }

  function DigitChar(d: nat): (c: char)
    requires d < 10
    ensures IsDigit(c) && c as int - '0' as int == d
  {
    ('0' as int + d) as char
  }

  /** The value of a string of decimal digits. */
  function ParseNat(s: string): (n: nat)
    requires IsDigits(s)
  {
    if s == [] then 0
    else ParseNat(s[..|s| - 1]) * 10 + (s[|s| - 1] as int - '0' as int)
  }

  /** The decimal text of a non-negative int, as int.ToString() writes it. */
  function NatToString(n: nat): (r: string)
    ensures IsCanonical(r)
    ensures n < 10 <==> |r| == 1
  {
    if n < 10 then [DigitChar(n)]
    else NatToString(n / 10) + [DigitChar(n % 10)]
  }

  /** Reading the decimal text of n back gives n. */
  lemma {:induction false} NatToStringRoundTrip(n: nat)
    ensures ParseNat(NatToString(n)) == n
  {
    if n >= 10 {
      var r := NatToString(n);
      assert r[..|r| - 1] == NatToString(n / 10);
      NatToStringRoundTrip(n / 10);
    }
  }

  /** The "D2" format: at least two digits, padded with a leading zero. */
  function Pad2(n: nat): (r: string)
    requires n < 100
    ensures |r| == 2 && IsDigits(r) && ParseNat(r) == n
  {
    NatToStringRoundTrip(n);
    if n < 10 then
      var r := "0" + NatToString(n);
      assert r[..1] == "0";
      r
    else NatToString(n)
  }

  // ---------------------------------------------------------------------------
  // Durations
  // ---------------------------------------------------------------------------

  /** The TimeSpan components of a whole number of seconds; whole days are dropped. */
  function Hours(secs: nat): (h: nat) { (secs / 3600) % 24 }
  function Minutes(secs: nat): (m: nat) { (secs / 60) % 60 }
  function Seconds(secs: nat): (s: nat) { secs % 60 }

  /**
   * The three components are bounded like TimeSpan's and together give the
   * duration modulo one day.
   */
  lemma TimeSpanComponents(secs: nat)
    ensures Hours(secs) < 24 && Minutes(secs) < 60 && Seconds(secs) < 60
    ensures Hours(secs) * 3600 + Minutes(secs) * 60 + Seconds(secs) == secs % 86400
  {
    var t := secs % 86400;
    var m := secs / 60;
    assert secs == m * 60 + Seconds(secs);
    assert m == (m / 60) * 60 + Minutes(secs);
    assert m / 60 == secs / 3600;
    var h := secs / 3600;
    assert h == (h / 24) * 24 + Hours(secs);
    assert secs == (h / 24) * 86400 + (Hours(secs) * 3600 + Minutes(secs) * 60 + Seconds(secs));
  }

  /** GetDurationString: "M:SS" below an hour, "H:MM:SS" from one hour on. */
  function DurationString(secs: nat): (r: string)
  {
    var h, m, s := Hours(secs), Minutes(secs), Seconds(secs);
    (if h > 0 then NatToString(h) + ":" + Pad2(m) else NatToString(m)) + ":" + Pad2(s)
  }

  /** The colon-separated fields of a string. */
  function Split(s: string): (r: seq<string>)
    ensures |r| >= 1
  {
    if s == [] then [[]]
    else
      var rest := Split(s[1..]);
      if s[0] == ':' then [[]] + rest else [[s[0]] + rest[0]] + rest[1..]
  }

  lemma {:induction false} SplitDigits(a: string)
    requires IsDigits(a)
    ensures Split(a) == [a]
  {
    if a != [] {
      assert IsDigit(a[0]) && IsDigits(a[1..]);
      SplitDigits(a[1..]);
      assert [a[0]] + a[1..] == a;
    }
  }

  lemma {:induction false} SplitAfterDigits(a: string, b: string)
    requires IsDigits(a)
    ensures Split(a + ":" + b) == [a] + Split(b)
  {
    if a == [] {
      assert (a + ":" + b)[1..] == b;
    } else {
      assert IsDigit(a[0]) && IsDigits(a[1..]);
      assert (a + ":" + b)[0] == a[0];
      assert (a + ":" + b)[1..] == a[1..] + ":" + b;
      SplitAfterDigits(a[1..], b);
      assert [a[0]] + a[1..] == a;
    }
  }

  /** Reads "M:SS" or "H:MM:SS" back into seconds. */
  function ParseDuration(s: string): (secs: Option<nat>)
  {
    var f := Split(s);
    if |f| == 2 && IsDigits(f[0]) && IsDigits(f[1]) then
      Some(ParseNat(f[0]) * 60 + ParseNat(f[1]))
    else if |f| == 3 && IsDigits(f[0]) && IsDigits(f[1]) && IsDigits(f[2]) then
      Some(ParseNat(f[0]) * 3600 + ParseNat(f[1]) * 60 + ParseNat(f[2]))
    else None
  }

  /**
   * The shape of a duration string: below an hour two fields, the minutes
   * unpadded and the seconds in two digits; from an hour on three fields,
   * the hours unpadded and minutes and seconds in two digits each.
   */
  lemma DurationStringFields(secs: nat)
    ensures var f := Split(DurationString(secs));
      (Hours(secs) == 0 ==>
        |f| == 2 && IsCanonical(f[0]) && ParseNat(f[0]) == Minutes(secs) &&
        |f[1]| == 2 && IsDigits(f[1]) && ParseNat(f[1]) == Seconds(secs)) &&
      (Hours(secs) > 0 ==>
        |f| == 3 && IsCanonical(f[0]) && ParseNat(f[0]) == Hours(secs) &&
        |f[1]| == 2 && IsDigits(f[1]) && ParseNat(f[1]) == Minutes(secs) &&
        |f[2]| == 2 && IsDigits(f[2]) && ParseNat(f[2]) == Seconds(secs))
  {
    TimeSpanComponents(secs);
    var h, m, s := Hours(secs), Minutes(secs), Seconds(secs);
    SplitDigits(Pad2(s));
    NatToStringRoundTrip(h);
    NatToStringRoundTrip(m);
    if h > 0 {
      SplitAfterDigits(Pad2(m), Pad2(s));
      assert NatToString(h) + ":" + Pad2(m) + ":" + Pad2(s)
          == NatToString(h) + ":" + (Pad2(m) + ":" + Pad2(s));
      SplitAfterDigits(NatToString(h), Pad2(m) + ":" + Pad2(s));
    } else {
      SplitAfterDigits(NatToString(m), Pad2(s));
    }
  }

  /** Reading a duration string back gives the duration modulo one day. */
  lemma DurationStringRoundTrip(secs: nat)
    ensures ParseDuration(DurationString(secs)) == Some(secs % 86400)
  {
    DurationStringFields(secs);
    TimeSpanComponents(secs);
  }

  // ---------------------------------------------------------------------------
  // Queue listing
  // ---------------------------------------------------------------------------

  /** GetQueueTrackString: "[title](url) | `duration`". */
  function QueueTrackString(t: Track): (r: string)
  {
    "[" + t.title + "](" + t.url + ") | `" + DurationString(t.duration) + "`"
  }

  /**
   * Where the parts of a queue line sit, and that the part between the
   * backticks reads back as the track's duration.
   */
  lemma QueueTrackStringLayout(t: Track)
    ensures var r, a, b, d := QueueTrackString(t), |t.title|, |t.url|, DurationString(t.duration);
      |r| == a + b + |d| + 9 &&
      r[..1] == "[" && r[1..1 + a] == t.title && r[1 + a..3 + a] == "](" &&
      r[3 + a..3 + a + b] == t.url && r[3 + a + b..8 + a + b] == ") | `" &&
      r[8 + a + b..|r| - 1] == d && r[|r| - 1] == '`' &&
      ParseDuration(r[8 + a + b..|r| - 1]) == Some(t.duration % 86400)
  {
    var a, b, d := |t.title|, |t.url|, DurationString(t.duration);
    var p1 := "[" + t.title;
    var p2 := p1 + "](";
    var p3 := p2 + t.url;
    var p4 := p3 + ") | `";
    var p5 := p4 + d;
    var r := p5 + "`";
    assert r == QueueTrackString(t);
    assert r[..|p5|] == p5 && p5[..|p4|] == p4 && p4[..|p3|] == p3;
    assert p3[..|p2|] == p2 && p2[..|p1|] == p1;
    assert r[..1] == p1[..1] == "[";
    assert r[1..1 + a] == p1[1..] == t.title;
    assert r[1 + a..3 + a] == p2[|p1|..] == "](";
    assert r[3 + a..3 + a + b] == p3[|p2|..] == t.url;
    assert r[3 + a + b..8 + a + b] == p4[|p3|..] == ") | `";
    assert r[8 + a + b..|r| - 1] == p5[|p4|..] == d;
    DurationStringRoundTrip(t.duration);
  }

  /** How many queue entries the listing shows: at most ten. */
  function UpNextCap(count: nat): (cap: nat)
    ensures cap <= 10 && cap <= count
    ensures cap == 10 || cap == count
  {
    if count < 10 then count else 10
  }

  /** The listing line of the entry numbered n. */
  function UpNextEntry(n: nat, t: Track): (line: string)
  {
    "`" + NatToString(n) + ".` " + QueueTrackString(t)
  }

  /** An entry line opens with its number in backticks, then the track's line. */
  lemma UpNextEntryNumbered(n: nat, t: Track)
    ensures var e, w := UpNextEntry(n, t), |NatToString(n)|;
      |e| == w + 4 + |QueueTrackString(t)| &&
      e[0] == '`' && IsCanonical(e[1..1 + w]) && ParseNat(e[1..1 + w]) == n &&
      e[1 + w..4 + w] == ".` " && e[4 + w..] == QueueTrackString(t)
  {
    var e, w := UpNextEntry(n, t), |NatToString(n)|;
    assert e == "`" + NatToString(n) + ".` " + QueueTrackString(t);
    assert e[1..1 + w] == NatToString(n);
    NatToStringRoundTrip(n);
  }

  /**
   * The "Up Next" section of the queue listing: nothing for an empty queue,
   * else a blank line, the heading and the first UpNextCap entries in queue
   * order, numbered from 1.
   */
  method UpNextSection(queue: seq<Track>) returns (lines: seq<string>)
    ensures queue == [] ==> lines == []
    ensures queue != [] ==>
      |lines| == 2 + UpNextCap(|queue|) && lines[0] == "" && lines[1] == "__Up Next:__"
    ensures queue != [] ==>
      forall i :: 0 <= i < UpNextCap(|queue|) ==> lines[2 + i] == UpNextEntry(i + 1, queue[i])
  {
    lines := [];
    if |queue| > 0 {
      lines := lines + [""];
      lines := lines + ["__Up Next:__"];

      var cap := 10;
      if |queue| < 10 {
        cap := |queue|;
      }

      for i := 0 to cap
        invariant |lines| == 2 + i && lines[0] == "" && lines[1] == "__Up Next:__"
        invariant forall k :: 0 <= k < i ==> lines[2 + k] == UpNextEntry(k + 1, queue[k])
      {
        lines := lines + [UpNextEntry(i + 1, queue[i])];
      }
    }
  }
}
