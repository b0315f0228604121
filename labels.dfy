/** Chat titles, previews and the elapsed-time labels ("Nu", "5 uur geleden", ...)
    that both dashboards and the document viewer show. */
module Labels {
  import opened Common
  import opened Text
  import opened Entities

  const TitleLength: nat := 50
  const PreviewLength: nat := 60
  const Ellipsis: string := "..."
  const NewChatPreview: string := "Nieuwe chat"

  const HourMs: nat := 3600000
  const DayMs: nat := 24 * HourMs

  const NowLabel: string := "Nu"
  const YesterdayLabel: string := "Gisteren"
  const HoursSuffix: string := " uur geleden"
  const DaysSuffix: string := " dagen geleden"

  /** `generateChatTitle`: a message of at most 50 characters is its own title; a longer one
      is cut to its first 50 characters and marked with "...". */
  function GenerateChatTitle(firstUserMessage: string): (r: string)
    ensures |r| <= TitleLength + |Ellipsis|
    ensures Prefix(firstUserMessage, TitleLength) <= r
    ensures |firstUserMessage| <= TitleLength ==> r == firstUserMessage
    ensures |firstUserMessage| > TitleLength ==> |r| == TitleLength + |Ellipsis| && r[TitleLength..] == Ellipsis
  {
    if |firstUserMessage| > TitleLength
    then firstUserMessage[..TitleLength] + Ellipsis
    else firstUserMessage
  }

  /** `messages.find(msg => msg.type === 'user')`, as the index of that message. */
  function FirstUserIndex(messages: seq<Message>): (r: Option<nat>)
    ensures r.None? <==> !HasUserMessage(messages)
    ensures r.Some? ==>
      (r.value < |messages| && messages[r.value].role == User
       && forall j :: 0 <= j < r.value ==> messages[j].role == Bot)
  {
    if messages == [] then None
    else if messages[0].role == User then Some(0)
    else match FirstUserIndex(messages[1..])
      case None => None
      case Some(k) => Some(k + 1)
  }

  /** `generatePreview`: the first 60 characters of the first user message followed by "...",
      or "Nieuwe chat" when there is no user message. */
  function GeneratePreview(messages: seq<Message>): (r: string)
    ensures !HasUserMessage(messages) ==> r == NewChatPreview
    ensures forall i ::
      (0 <= i < |messages| && messages[i].role == User
       && (forall j :: 0 <= j < i ==> messages[j].role == Bot))
      ==> r == Prefix(messages[i].content, PreviewLength) + Ellipsis
    ensures r == NewChatPreview <==> !HasUserMessage(messages)
  {
    match FirstUserIndex(messages)
    case None => NewChatPreview
    case Some(i) =>
      var r := Prefix(messages[i].content, PreviewLength) + Ellipsis;
      assert r[|r| - 1] == '.' != NewChatPreview[|NewChatPreview| - 1];
      r
  }

  /** Appending to a chat that already has a user message leaves its first user message, and so its
      preview, as it was. */
  lemma {:induction false} PreviewStableUnderAppend(messages: seq<Message>, extra: seq<Message>)
    requires HasUserMessage(messages)
    ensures FirstUserIndex(messages + extra) == FirstUserIndex(messages)
    ensures GeneratePreview(messages + extra) == GeneratePreview(messages)
  {
    var i := FirstUserIndex(messages).value;
    var both := messages + extra;
    assert forall j :: 0 <= j <= i ==> both[j] == messages[j];
    assert HasUserMessage(both);
  }

  /** `Math.abs(now.getTime() - date.getTime())`. */
  function Elapsed(nowMs: int, dateMs: int): nat {
    if nowMs >= dateMs then nowMs - dateMs else dateMs - nowMs
  }

  /** `formatTimestamp` (and `formatDate` of the document viewer): the label for the time
      between `dateMs` and `nowMs`, in milliseconds, either way round. */
  function FormatTimestamp(nowMs: int, dateMs: int): string {
    var diff := Elapsed(nowMs, dateMs);
    if diff < HourMs then NowLabel
    else if diff < 24 * HourMs then NatToString(diff / HourMs) + HoursSuffix
    else if diff < 48 * HourMs then YesterdayLabel
    else NatToString(diff / DayMs) + DaysSuffix
  }

  /** Which label a distance gets: "Nu" exactly under an hour, "Gisteren" exactly from 24 up to
      48 hours, "N uur geleden" in between and "N dagen geleden" from 48 hours on. */
  lemma FormatTimestampKinds(nowMs: int, dateMs: int)
    ensures var d, r := Elapsed(nowMs, dateMs), FormatTimestamp(nowMs, dateMs);
      && (r == NowLabel <==> d < HourMs)
      && (r == YesterdayLabel <==> 24 * HourMs <= d < 48 * HourMs)
      && (HourMs <= d < 24 * HourMs <==> |r| > |HoursSuffix| && r[|r| - |HoursSuffix|..] == HoursSuffix)
      && (48 * HourMs <= d <==> |r| > |DaysSuffix| && r[|r| - |DaysSuffix|..] == DaysSuffix)
  {
    var d, r := Elapsed(nowMs, dateMs), FormatTimestamp(nowMs, dateMs);
    if HourMs <= d < 24 * HourMs {
      NatToStringShort(d / HourMs);
      assert r[|r| - |HoursSuffix|..] == HoursSuffix;
    } else if 48 * HourMs <= d {
      assert r[|r| - |HoursSuffix|..] == DaysSuffix[2..];
      assert r[|r| - |DaysSuffix|..] == DaysSuffix;
      assert DaysSuffix[2..][0] != HoursSuffix[0];
    }
  }

  lemma NatToStringShort(n: nat)
    requires n < 100
    ensures |NatToString(n)| <= 2
  {
  }

  /** The number an "N uur geleden" label shows is the time in whole hours. */
  lemma HoursLabelReadsBack(nowMs: int, dateMs: int)
    requires HourMs <= Elapsed(nowMs, dateMs) < 24 * HourMs
    ensures var r := FormatTimestamp(nowMs, dateMs); var n := r[..|r| - |HoursSuffix|];
      |r| > |HoursSuffix| && IsDigits(n)
      && 1 <= ParseDecimal(n) < 24
      && ParseDecimal(n) * HourMs <= Elapsed(nowMs, dateMs) < (ParseDecimal(n) + 1) * HourMs
  {
    var d, r := Elapsed(nowMs, dateMs), FormatTimestamp(nowMs, dateMs);
    assert r[..|r| - |HoursSuffix|] == NatToString(d / HourMs);
    ParseNatToString(d / HourMs);
  }

  /** The number an "N dagen geleden" label shows is the time in whole days, at least 2. */
  lemma DaysLabelReadsBack(nowMs: int, dateMs: int)
    requires 48 * HourMs <= Elapsed(nowMs, dateMs)
    ensures var r := FormatTimestamp(nowMs, dateMs); var n := r[..|r| - |DaysSuffix|];
      |r| > |DaysSuffix| && IsDigits(n)
      && 2 <= ParseDecimal(n)
      && ParseDecimal(n) * DayMs <= Elapsed(nowMs, dateMs) < (ParseDecimal(n) + 1) * DayMs
  {
    var d, r := Elapsed(nowMs, dateMs), FormatTimestamp(nowMs, dateMs);
    var q := d / DayMs;
    assert q * DayMs <= d < (q + 1) * DayMs;
    assert 2 <= q;
    assert r[..|r| - |DaysSuffix|] == NatToString(q);
    ParseNatToString(q);
  }

  /** Half an hour is "Nu", five hours "5 uur geleden", thirty hours "Gisteren" and
      ninety hours "3 dagen geleden". */
  lemma FormatTimestampExamples(nowMs: int)
    ensures FormatTimestamp(nowMs, nowMs - HourMs / 2) == "Nu"
    ensures FormatTimestamp(nowMs, nowMs - 5 * HourMs) == "5 uur geleden"
    ensures FormatTimestamp(nowMs, nowMs - 30 * HourMs) == "Gisteren"
    ensures FormatTimestamp(nowMs, nowMs - 90 * HourMs) == "3 dagen geleden"
  {
    assert Elapsed(nowMs, nowMs - 5 * HourMs) / HourMs == 5;
    assert Elapsed(nowMs, nowMs - 90 * HourMs) / DayMs == 3;
    assert NatToString(5) == "5";
    assert NatToString(3) == "3";
  }

  /** A label made at the moment it is shown. */
  lemma FormatTimestampSameMoment(t: int)
    ensures FormatTimestamp(t, t) == NowLabel
  {
  }
}
