/** The text part of the notification: the trap's name, the battery
    percentage written in decimal, and a fixed advisory. The parser shows that
    the text carries exactly the name and the percentage. */
module Text {
  import opened Values

  const TitleLabel: string := "【罠名称】\n"
  const BatteryLabel: string := "\n【バッテリー状況】\n"
  const Closing: string := "%\n【内容】\n罠が作動しました。\n確認してください。"

  predicate IsDigit(c: char) {
    '0' <= c <= '9'
  }

  predicate AllDigits(s: string) {
    forall i :: 0 <= i < |s| ==> IsDigit(s[i])
  }

  function DigitChar(d: nat): (c: char)
    requires d < 10
    ensures IsDigit(c) && c as int - '0' as int == d
  {
    (('0' as int) + d) as char
  }

  function DigitValue(c: char): (v: nat) {
    if IsDigit(c) then c as int - '0' as int else 0
  }

  /** How a JavaScript number that is a whole number prints: its decimal
      digits, with no leading zero. */
  function Decimal(n: nat): (s: string)
    ensures |s| >= 1 && AllDigits(s)
    ensures |s| > 1 ==> s[0] != '0'
    ensures n < 10 <==> |s| == 1
  {
    if n < 10 then [DigitChar(n)] else Decimal(n / 10) + [DigitChar(n % 10)]
  }

  /** Reads a run of decimal digits back into a number. */
  function ParseDecimal(s: string): (n: nat) {
    if s == [] then 0 else ParseDecimal(s[..|s| - 1]) * 10 + DigitValue(s[|s| - 1])
  }

  lemma {:induction false} DecimalRoundTrip(n: nat)
    ensures ParseDecimal(Decimal(n)) == n
  {
    var s := Decimal(n);
    if n >= 10 {
      assert s[..|s| - 1] == Decimal(n / 10);
      DecimalRoundTrip(n / 10);
    }
  }

  /** The number of digits that end `s`. */
  function TrailingDigits(s: string): (k: nat)
    ensures k <= |s|
  {
    if s == [] || !IsDigit(s[|s| - 1]) then 0 else 1 + TrailingDigits(s[..|s| - 1])
  }

  lemma {:induction false} TrailingDigitsOfSuffix(x: string, d: string)
    requires |x| > 0 && !IsDigit(x[|x| - 1])
    requires AllDigits(d)
    ensures TrailingDigits(x + d) == |d|
  {
    if d == [] {
      assert x + d == x;
    } else {
      var d' := d[..|d| - 1];
      assert (x + d)[..|x + d| - 1] == x + d';
      TrailingDigitsOfSuffix(x, d');
    }
  }

  /** The text part of the notification for a trap name and a battery level. */
  function NotificationText(simName: string, level: BatteryLevel): (t: string)
    ensures TitleLabel + simName + BatteryLabel <= t
    ensures |t| == |TitleLabel| + |simName| + |BatteryLabel| + |Decimal(Percent(level))| + |Closing|
    ensures t[|t| - |Closing|..] == Closing
  {
    TitleLabel + simName + BatteryLabel + Decimal(Percent(level)) + Closing
  }

  /** `s` without the suffix `suffix`, when it ends with it. */
  function StripSuffix(s: string, suffix: string): (r: Option<string>) {
    if |s| >= |suffix| && s[|s| - |suffix|..] == suffix then Some(s[..|s| - |suffix|]) else None
  }

  /** Reads `name + sep + digits` back into the name and the number the
      digits spell. */
  function ParseBody(body: string, sep: string): (r: Option<(string, nat)>) {
    var k := TrailingDigits(body);
    if k == 0 then None
    else
      match StripSuffix(body[..|body| - k], sep)
      case None => None
      case Some(name) => Some((name, ParseDecimal(body[|body| - k..])))
  }

  /** Reads `title + name + sep + digits + closing` back into the name and
      the number the digits spell, for any title, separator and closing. */
  function ParseFramed(t: string, title: string, sep: string, closing: string): (r: Option<(string, nat)>) {
    if |t| < |title| + |closing| || t[..|title|] != title || t[|t| - |closing|..] != closing then
      None
    else
      ParseBody(t[|title|..|t| - |closing|], sep)
  }

  /** Recovers the trap name and the percentage from a notification text. */
  function ParseNotificationText(t: string): (r: Option<(string, nat)>) {
    ParseFramed(t, TitleLabel, BatteryLabel, Closing)
  }

  lemma StripSuffixOf(x: string, y: string)
    ensures StripSuffix(x + y, y) == Some(x)
  {
  }

  /** A separator that does not end in a digit keeps the name and the digits
      apart, whatever the name contains. */
  lemma ParseBodyOf(name: string, sep: string, d: string)
    requires |sep| > 0 && !IsDigit(sep[|sep| - 1])
    requires |d| > 0 && AllDigits(d)
    ensures ParseBody(name + sep + d, sep) == Some((name, ParseDecimal(d)))
  {
    var head := name + sep;
    var body := head + d;
    assert head[|head| - 1] == sep[|sep| - 1];
    TrailingDigitsOfSuffix(head, d);
    assert body[..|body| - |d|] == head;
    assert body[|body| - |d|..] == d;
    StripSuffixOf(name, sep);
  }

  /** A text in its frame reads as its middle. */
  lemma ParseFramedOf(t: string, title: string, body: string, sep: string, closing: string)
    requires t == title + body + closing
    ensures ParseFramed(t, title, sep, closing) == ParseBody(body, sep)
  {
    assert t[..|title|] == title;
    assert t[|t| - |closing|..] == closing;
    assert t[|title|..|t| - |closing|] == body;
  }

  lemma ParseFramedRoundTrip(title: string, name: string, sep: string, d: string, closing: string)
    requires |sep| > 0 && !IsDigit(sep[|sep| - 1])
    requires |d| > 0 && AllDigits(d)
    ensures ParseFramed(title + name + sep + d + closing, title, sep, closing) == Some((name, ParseDecimal(d)))
  {
    var body := name + sep + d;
    var t := title + name + sep + d + closing;
    assert t == title + body + closing;
    ParseFramedOf(t, title, body, sep, closing);
    ParseBodyOf(name, sep, d);
  }

  /** The text part names the trap and states the battery percentage, and
      nothing in the trap's name can blur either. */
  lemma NotificationTextRoundTrip(simName: string, level: BatteryLevel)
    ensures ParseNotificationText(NotificationText(simName, level)) == Some((simName, Percent(level)))
  {
    assert BatteryLabel[|BatteryLabel| - 1] == '\n';
    ParseFramedRoundTrip(TitleLabel, simName, BatteryLabel, Decimal(Percent(level)), Closing);
    DecimalRoundTrip(Percent(level));
  }

  /** The percentage is printed right before the percent sign that opens the
      closing lines: 0.5 reads "50%". */
  lemma PercentShown(simName: string, level: BatteryLevel)
    ensures var t := NotificationText(simName, level);
            var at := |TitleLabel| + |simName| + |BatteryLabel|;
            var shown := Decimal(Percent(level)) + "%";
            at + |shown| <= |t| && t[at..at + |shown|] == shown
  {
    var t := NotificationText(simName, level);
    var d := Decimal(Percent(level));
    var at := |TitleLabel| + |simName| + |BatteryLabel|;
    assert t == (TitleLabel + simName + BatteryLabel) + d + Closing;
    assert t[at..at + |d| + 1] == d + [Closing[0]];
  }

  lemma HalfBatteryReadsFiftyPercent()
    ensures Decimal(Percent(Half)) + "%" == "50%"
  {
  }
}
