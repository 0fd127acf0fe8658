/**
 * The per-kind sub-renderers of the webhook reply (`_format_email_list`,
 * `_format_calendar_events`, `_format_notes`, `_format_tasks`,
 * `_format_generic_list`) and the date helper `_format_date`.
 *
 * Each sub-renderer is given twice: as a function that says what text it
 * produces (a header, then one numbered block per item) and as a method with
 * the source's loop, which grows `formatted` item by item and is proved to
 * produce exactly that text.  A raised exception is an `Outcome.Raised`.
 */
module WebhookItems {

  import opened Wrappers
  import opened Strings
  import opened PyValue

  /** The fields of a parsed date-time that `strftime('%d/%m/%Y à %H:%M')` prints. */
  datatype DateTime = DateTime(year: nat, month: nat, day: nat, hour: nat, minute: nat)
  {
    predicate Valid()
    {
      1 <= year <= 9999 && 1 <= month <= 12 && 1 <= day <= 31 && hour <= 23 && minute <= 59
    }
  }

  type ParsedDate = d: DateTime | d.Valid() witness DateTime(1, 1, 1, 0, 0)

  /** Library code the renderer calls, taken as given. */
  datatype Host = Host(
    printer: Printer,                            // str()/repr() of floats and strs
    fromIsoFormat: string -> Option<ParsedDate>, // datetime.fromisoformat; None where it raises
    dumps: Json -> string)                       // json.dumps(v, indent=2, ensure_ascii=False)

  // ---------------------------------------------------------------------------
  // Dates

  /** `date_obj.strftime('%d/%m/%Y à %H:%M')`. */
  function Strftime(d: ParsedDate): (r: string)
    ensures |r| == 18 && r[2] == '/' && r[5] == '/' && r[10..13] == " à " && r[15] == ':'
  {
    assert Pow10(2) == 100 && Pow10(4) == 10000;
    ZeroPadRoundTrip(d.day, 2);
    ZeroPadRoundTrip(d.month, 2);
    ZeroPadRoundTrip(d.year, 4);
    ZeroPadRoundTrip(d.hour, 2);
    ZeroPadRoundTrip(d.minute, 2);
    ZeroPad(d.day, 2) + ("/" + (ZeroPad(d.month, 2) + ("/" + (ZeroPad(d.year, 4)
      + (" à " + (ZeroPad(d.hour, 2) + (":" + ZeroPad(d.minute, 2))))))))
  }

  /** A field of decimal digits. */
  predicate AllDigits(field: string)
  {
    forall i :: 0 <= i < |field| ==> IsDigit(field[i])
  }

  /**
   * Reading a printed date back: eighteen characters laid out as
   * DD/MM/YYYY à HH:MM, each field digits only.
   */
  function ParseDisplayedDate(r: string): Option<DateTime>
  {
    if |r| == 18 && r[2] == '/' && r[5] == '/' && r[10..13] == " à " && r[15] == ':'
       && AllDigits(r[..2]) && AllDigits(r[3..5]) && AllDigits(r[6..10]) && AllDigits(r[13..15]) && AllDigits(r[16..])
    then Some(DateTime(DecimalValue(r[6..10]), DecimalValue(r[3..5]), DecimalValue(r[..2]),
                       DecimalValue(r[13..15]), DecimalValue(r[16..])))
    else None
  }

  /** `whole` is `field`, then `sep`, then `tail`. */
  lemma Peel(whole: string, field: string, sep: string, tail: string)
    requires whole == field + (sep + tail)
    ensures whole[..|field|] == field && whole[|field|..|field| + |sep|] == sep
    ensures whole[|field| + |sep|..] == tail
  {
  }

  /** The printed form of a parsed date reads back as that date. */
  lemma StrftimeRoundTrip(d: ParsedDate)
    ensures ParseDisplayedDate(Strftime(d)) == Some(d)
  {
    assert Pow10(2) == 100 && Pow10(4) == 10000;
    ZeroPadRoundTrip(d.day, 2);
    ZeroPadRoundTrip(d.month, 2);
    ZeroPadRoundTrip(d.year, 4);
    ZeroPadRoundTrip(d.hour, 2);
    ZeroPadRoundTrip(d.minute, 2);
    var dd, mm, yyyy, hh, mi := ZeroPad(d.day, 2), ZeroPad(d.month, 2), ZeroPad(d.year, 4), ZeroPad(d.hour, 2), ZeroPad(d.minute, 2);
    var t3 := hh + (":" + mi);
    var t2 := yyyy + (" à " + t3);
    var t1 := mm + ("/" + t2);
    var r := dd + ("/" + t1);
    assert r == Strftime(d);
    Peel(r, dd, "/", t1);
    Peel(t1, mm, "/", t2);
    Peel(t2, yyyy, " à ", t3);
    Peel(t3, hh, ":", mi);
    assert r[3..5] == t1[..2];
    assert r[6..10] == t2[..4];
    assert r[10..13] == t2[4..7];
    assert r[13..15] == t3[..2];
    assert r[16..] == mi;
  }

  /**
   * What `_format_date(v)` returns, as printed: a str is parsed after every
   * 'Z' is replaced by '+00:00' and printed as DD/MM/YYYY à HH:MM; anything
   * that cannot be parsed, including a value that is not a str, comes back
   * unchanged.
   */
  function FormatDate(v: Json, host: Host): (r: string)
    ensures !v.JStr? ==> r == Show(v, host.printer)
    ensures v.JStr? && host.fromIsoFormat(ReplaceChar(v.s, 'Z', "+00:00")).None? ==> r == v.s
  {
    match v
    case JStr(s) =>
      (match host.fromIsoFormat(ReplaceChar(s, 'Z', "+00:00"))
       case Some(d) => Strftime(d)
       case None => s)
    case _ => Show(v, host.printer)
  }

  /**
   * A date the parser accepts is printed so that it reads back as the parsed
   * date; the parser never sees a 'Z'.
   */
  lemma FormatDateReadsBack(s: string, host: Host)
    requires host.fromIsoFormat(ReplaceChar(s, 'Z', "+00:00")).Some?
    ensures 'Z' !in ReplaceChar(s, 'Z', "+00:00")
    ensures ParseDisplayedDate(FormatDate(JStr(s), host)) == Some(host.fromIsoFormat(ReplaceChar(s, 'Z', "+00:00")).value)
  {
    StrftimeRoundTrip(host.fromIsoFormat(ReplaceChar(s, 'Z', "+00:00")).value);
  }

  // ---------------------------------------------------------------------------
  // Pieces shared by the sub-renderers

  /** `f"{emoji} **{content}**"`. */
  function Header(emoji: string, content: Json, p: Printer): string
  {
    emoji + " **" + Show(content, p) + "**"
  }

  /** `f"**{idx}.** "`. */
  function Numbering(idx: nat): string
  {
    "**" + NatToString(idx) + ".** "
  }

  /**
   * `v[:n] + '...' if len(v) > n else v`: a long str is cut to its first `n`
   * characters plus "..."; a long list or dict raises, and so does a value
   * without a length.
   */
  function Truncate(v: Json, n: nat): (r: Outcome<Json>)
    ensures r.Ok? <==> v.JStr? || (Len(v).Some? && Len(v).value <= n)
    ensures r.Ok? && !(v.JStr? && |v.s| > n) ==> r == Ok(v)
    ensures v.JStr? && |v.s| > n ==>
              r.Ok? && r.value.JStr? && |r.value.s| == n + 3
              && r.value.s[..n] == v.s[..n] && r.value.s[n..] == "..."
  {
    match Len(v)
    case None => Raised(TypeError)
    case Some(len) =>
      if len <= n then Ok(v)
      else
        match v
        case JStr(s) => Ok(JStr(s[..n] + "..."))
        case JObj(_) => Raised(KeyError)
        case _ => Raised(TypeError)
  }

  /** `if v: block += line`. */
  function AppendIf(block: string, v: Json, line: string): (r: string)
    ensures r == block || r == block + line
    ensures block <= r
  {
    if Truthy(v) then block + line else block
  }

  /** `if v: block += prefix + str(v truncated to n) + "\n"`, raising where the truncation raises. */
  function AppendTruncated(block: string, v: Json, n: nat, prefix: string, p: Printer): (r: Outcome<string>)
    ensures !Truthy(v) ==> r == Ok(block)
    ensures r.Ok? ==> block <= r.value
  {
    if !Truthy(v) then Ok(block)
    else
      var t :- Truncate(v, n);
      Ok(block + (prefix + Show(t, p) + "\n"))
  }

  /**
   * `formatted` followed by the blocks of `items`, numbered from 1 in input
   * order (`for idx, item in enumerate(items, 1): formatted += ...`); the
   * first block that raises makes the whole rendering raise.
   */
  function Numbered(formatted: string, items: seq<Json>, block: (Json, nat) -> Outcome<string>): (r: Outcome<string>)
    ensures r.Ok? ==> formatted <= r.value
  {
    if |items| == 0 then Ok(formatted)
    else
      var before :- Numbered(formatted, items[..|items| - 1], block);
      var last :- block(items[|items| - 1], |items|);
      Ok(before + last)
  }

  function OkText(o: Outcome<string>): string
  {
    if o.Ok? then o.value else ""
  }

  /** A rendering succeeds exactly when every item's block does. */
  lemma {:induction false} NumberedOk(formatted: string, items: seq<Json>, block: (Json, nat) -> Outcome<string>)
    ensures Numbered(formatted, items, block).Ok? <==> forall i :: 0 <= i < |items| ==> block(items[i], i + 1).Ok?
  {
    if |items| > 0 {
      var init := items[..|items| - 1];
      NumberedOk(formatted, init, block);
      assert forall i :: 0 <= i < |init| ==> init[i] == items[i];
    }
  }

  /** A successful rendering is `formatted` then the blocks of items 1..n, in input order. */
  lemma {:induction false} NumberedConcat(formatted: string, items: seq<Json>, block: (Json, nat) -> Outcome<string>)
    requires Numbered(formatted, items, block).Ok?
    ensures Numbered(formatted, items, block).value
            == formatted + Concat(seq(|items|, i requires 0 <= i < |items| => OkText(block(items[i], i + 1))))
  {
    var parts := seq(|items|, i requires 0 <= i < |items| => OkText(block(items[i], i + 1)));
    if |items| > 0 {
      var init := items[..|items| - 1];
      NumberedConcat(formatted, init, block);
      assert parts[..|parts| - 1] == seq(|init|, i requires 0 <= i < |init| => OkText(block(init[i], i + 1)));
    }
  }

  /** Once the items before `k` render and item `k` raises, the whole list raises with that error. */
  lemma {:induction false} NumberedStops(formatted: string, items: seq<Json>, k: nat, block: (Json, nat) -> Outcome<string>)
    requires k < |items|
    requires Numbered(formatted, items[..k], block).Ok? && block(items[k], k + 1).Raised?
    ensures Numbered(formatted, items, block) == Raised(block(items[k], k + 1).error)
  {
    if k + 1 < |items| {
      assert items[..|items| - 1][..k] == items[..k];
      NumberedStops(formatted, items[..|items| - 1], k, block);
    } else {
      assert items[..|items| - 1] == items[..k];
    }
  }

  /** Rendering one more item appends its block. */
  lemma NumberedStep(formatted: string, items: seq<Json>, k: nat, block: (Json, nat) -> Outcome<string>)
    requires k < |items|
    requires Numbered(formatted, items[..k], block).Ok? && block(items[k], k + 1).Ok?
    ensures Numbered(formatted, items[..k + 1], block)
            == Ok(Numbered(formatted, items[..k], block).value + block(items[k], k + 1).value)
  {
    assert items[..k + 1][..k] == items[..k];
  }

  // ---------------------------------------------------------------------------
  // Email list (`_format_email_list`)

  /** The fields of an email, with the source's fallbacks. */
  function EmailSender(f: seq<(string, Json)>): Json { Get(f, "sender", Get(f, "from", JStr("Inconnu"))) }
  function EmailSubject(f: seq<(string, Json)>): Json { Get(f, "subject", JStr("Sans objet")) }
  function EmailDate(f: seq<(string, Json)>): Json { Get(f, "date", Get(f, "received", JStr(""))) }
  function EmailPreview(f: seq<(string, Json)>): Json { Get(f, "preview", Get(f, "snippet", JStr(""))) }

  /** `v` can be cut by `Truncate(v, n)` when it is truthy (a str, or a short list or dict). */
  predicate Cuttable(v: Json, n: nat)
  {
    !Truthy(v) || v.JStr? || (Len(v).Some? && Len(v).value <= n)
  }

  /**
   * One email's block: numbered subject, sender, the date when there is one,
   * the preview cut at 100 characters when there is one, then a blank line.
   * It raises when the item is not a dict or its preview cannot be cut.
   */
  function EmailBlock(item: Json, idx: nat, host: Host): (r: Outcome<string>)
    ensures r.Ok? <==> item.JObj? && Cuttable(EmailPreview(item.fields), 100)
    ensures !item.JObj? ==> r == Raised(AttributeError)
    ensures r.Ok? ==> Numbering(idx) + Show(EmailSubject(item.fields), host.printer) + "\n" <= r.value
    ensures r.Ok? ==> EndsWith(r.value, "\n")
  {
    match item
    case JObj(f) =>
      var p := host.printer;
      var b0 := Numbering(idx) + Show(EmailSubject(f), p) + "\n";
      var b1 := b0 + ("   📨 De: " + Show(EmailSender(f), p) + "\n");
      var b2 := AppendIf(b1, EmailDate(f), "   📅 " + FormatDate(EmailDate(f), host) + "\n");
      var b3 :- AppendTruncated(b2, EmailPreview(f), 100, "   💬 ", p);
      EndsWithAppended(b3, "\n");
      Ok(b3 + "\n")
    case _ => Raised(AttributeError)
  }

  function EmailBlockOf(host: Host): (Json, nat) -> Outcome<string>
  {
    (item: Json, idx: nat) => EmailBlock(item, idx, host)
  }

  /**
   * The email list: the header and a blank line, then the numbered email
   * blocks.  It raises exactly when `items` cannot be iterated or one of its
   * blocks raises.
   */
  function EmailListText(emoji: string, content: Json, items: Json, host: Host): (r: Outcome<string>)
    ensures r.Ok? <==> Iterate(items).Ok? && forall i :: 0 <= i < |Iterate(items).value| ==>
                         EmailBlock(Iterate(items).value[i], i + 1, host).Ok?
    ensures r.Ok? ==> Header(emoji, content, host.printer) + "\n\n" <= r.value
  {
    var xs :- Iterate(items);
    NumberedOk(Header(emoji, content, host.printer) + "\n\n", xs, EmailBlockOf(host));
    Numbered(Header(emoji, content, host.printer) + "\n\n", xs, EmailBlockOf(host))
  }

  /** The body of `_format_email_list`'s loop for one item. */
  method RenderEmail(item: Json, idx: nat, host: Host) returns (r: Outcome<string>)
    ensures r == EmailBlock(item, idx, host)
  {
    var p := host.printer;
    if !item.JObj? {
      return Raised(AttributeError);
    }
    var f := item.fields;
    var sender := EmailSender(f);
    var subject := EmailSubject(f);
    var dateStr := EmailDate(f);
    var preview := EmailPreview(f);

    var block := Numbering(idx) + Show(subject, p) + "\n";
    block := block + ("   📨 De: " + Show(sender, p) + "\n");
    if Truthy(dateStr) {
      block := block + ("   📅 " + FormatDate(dateStr, host) + "\n");
    }
    if Truthy(preview) {
      var previewText := Truncate(preview, 100);
      if previewText.Raised? {
        return Raised(previewText.error);
      }
      block := block + ("   💬 " + Show(previewText.value, p) + "\n");
    }
    block := block + "\n";
    return Ok(block);
  }

  method FormatEmailList(emoji: string, content: Json, items: Json, host: Host) returns (r: Outcome<string>)
    ensures r == EmailListText(emoji, content, items, host)
  {
    var formatted := Header(emoji, content, host.printer) + "\n\n";
    ghost var head := formatted;
    var xs :- Iterate(items);
    for i := 0 to |xs|
      invariant Numbered(head, xs[..i], EmailBlockOf(host)) == Ok(formatted)
    {
      var block := RenderEmail(xs[i], i + 1, host);
      if block.Raised? {
        NumberedStops(head, xs, i, EmailBlockOf(host));
        return Raised(block.error);
      }
      NumberedStep(head, xs, i, EmailBlockOf(host));
      formatted := formatted + block.value;
    }
    assert xs[..|xs|] == xs;
    return Ok(formatted);
  }

  // ---------------------------------------------------------------------------
  // Calendar events (`_format_calendar_events`)

  function EventTitle(f: seq<(string, Json)>): Json { Get(f, "title", Get(f, "summary", JStr("Sans titre"))) }
  function EventStart(f: seq<(string, Json)>): Json { Get(f, "start", Get(f, "start_time", JStr(""))) }
  function EventEnd(f: seq<(string, Json)>): Json { Get(f, "end", Get(f, "end_time", JStr(""))) }
  function EventLocation(f: seq<(string, Json)>): Json { Get(f, "location", JStr("")) }
  function EventDescription(f: seq<(string, Json)>): Json { Get(f, "description", JStr("")) }

  /**
   * One event's block: numbered title, then start, end, place and the
   * description cut at 100 characters, each only when present, then a blank
   * line.  It raises when the item is not a dict or its description cannot be cut.
   */
  function EventBlock(item: Json, idx: nat, host: Host): (r: Outcome<string>)
    ensures r.Ok? <==> item.JObj? && Cuttable(EventDescription(item.fields), 100)
    ensures !item.JObj? ==> r == Raised(AttributeError)
    ensures r.Ok? ==> Numbering(idx) + Show(EventTitle(item.fields), host.printer) + "\n" <= r.value
    ensures r.Ok? ==> EndsWith(r.value, "\n")
  {
    match item
    case JObj(f) =>
      var p := host.printer;
      var b0 := Numbering(idx) + Show(EventTitle(f), p) + "\n";
      var b1 := AppendIf(b0, EventStart(f), "   🕐 Début: " + FormatDate(EventStart(f), host) + "\n");
      var b2 := AppendIf(b1, EventEnd(f), "   🕐 Fin: " + FormatDate(EventEnd(f), host) + "\n");
      var b3 := AppendIf(b2, EventLocation(f), "   📍 Lieu: " + Show(EventLocation(f), p) + "\n");
      var b4 :- AppendTruncated(b3, EventDescription(f), 100, "   📄 ", p);
      EndsWithAppended(b4, "\n");
      Ok(b4 + "\n")
    case _ => Raised(AttributeError)
  }

  function EventBlockOf(host: Host): (Json, nat) -> Outcome<string>
  {
    (item: Json, idx: nat) => EventBlock(item, idx, host)
  }

  /**
   * The calendar listing: the header and a blank line, then the numbered
   * event blocks.  It raises exactly when `items` cannot be iterated or one
   * of its blocks raises.
   */
  function CalendarEventsText(emoji: string, content: Json, items: Json, host: Host): (r: Outcome<string>)
    ensures r.Ok? <==> Iterate(items).Ok? && forall i :: 0 <= i < |Iterate(items).value| ==>
                         EventBlock(Iterate(items).value[i], i + 1, host).Ok?
    ensures r.Ok? ==> Header(emoji, content, host.printer) + "\n\n" <= r.value
  {
    var xs :- Iterate(items);
    NumberedOk(Header(emoji, content, host.printer) + "\n\n", xs, EventBlockOf(host));
    Numbered(Header(emoji, content, host.printer) + "\n\n", xs, EventBlockOf(host))
  }

  /** The body of `_format_calendar_events`'s loop for one item. */
  method RenderEvent(item: Json, idx: nat, host: Host) returns (r: Outcome<string>)
    ensures r == EventBlock(item, idx, host)
  {
    var p := host.printer;
    if !item.JObj? {
      return Raised(AttributeError);
    }
    var f := item.fields;
    var title := EventTitle(f);
    var startAt := EventStart(f);
    var endAt := EventEnd(f);
    var location := EventLocation(f);
    var description := EventDescription(f);

    var block := Numbering(idx) + Show(title, p) + "\n";
    if Truthy(startAt) {
      block := block + ("   🕐 Début: " + FormatDate(startAt, host) + "\n");
    }
    if Truthy(endAt) {
      block := block + ("   🕐 Fin: " + FormatDate(endAt, host) + "\n");
    }
    if Truthy(location) {
      block := block + ("   📍 Lieu: " + Show(location, p) + "\n");
    }
    if Truthy(description) {
      var descText := Truncate(description, 100);
      if descText.Raised? {
        return Raised(descText.error);
      }
      block := block + ("   📄 " + Show(descText.value, p) + "\n");
    }
    block := block + "\n";
    return Ok(block);
  }

  method FormatCalendarEvents(emoji: string, content: Json, items: Json, host: Host) returns (r: Outcome<string>)
    ensures r == CalendarEventsText(emoji, content, items, host)
  {
    var formatted := Header(emoji, content, host.printer) + "\n\n";
    ghost var head := formatted;
    var xs :- Iterate(items);
    for i := 0 to |xs|
      invariant Numbered(head, xs[..i], EventBlockOf(host)) == Ok(formatted)
    {
      var block := RenderEvent(xs[i], i + 1, host);
      if block.Raised? {
        NumberedStops(head, xs, i, EventBlockOf(host));
        return Raised(block.error);
      }
      NumberedStep(head, xs, i, EventBlockOf(host));
      formatted := formatted + block.value;
    }
    assert xs[..|xs|] == xs;
    return Ok(formatted);
  }

  // ---------------------------------------------------------------------------
  // Notes (`_format_notes`)

  function NoteTitle(f: seq<(string, Json)>): Json { Get(f, "title", JStr("Sans titre")) }
  function NoteBody(f: seq<(string, Json)>): Json { Get(f, "body", Get(f, "content", JStr(""))) }
  function NoteCreated(f: seq<(string, Json)>): Json { Get(f, "created", Get(f, "created_at", JStr(""))) }

  /**
   * One note's block: numbered title, the body cut at 150 characters and the
   * creation date, each only when present, then a blank line.  It raises
   * when the item is not a dict or its body cannot be cut.
   */
  function NoteBlock(item: Json, idx: nat, host: Host): (r: Outcome<string>)
    ensures r.Ok? <==> item.JObj? && Cuttable(NoteBody(item.fields), 150)
    ensures !item.JObj? ==> r == Raised(AttributeError)
    ensures r.Ok? ==> Numbering(idx) + Show(NoteTitle(item.fields), host.printer) + "\n" <= r.value
    ensures r.Ok? ==> EndsWith(r.value, "\n")
  {
    match item
    case JObj(f) =>
      var p := host.printer;
      var b0 := Numbering(idx) + Show(NoteTitle(f), p) + "\n";
      var b1 :- AppendTruncated(b0, NoteBody(f), 150, "   ", p);
      var b2 := AppendIf(b1, NoteCreated(f), "   🕐 " + FormatDate(NoteCreated(f), host) + "\n");
      EndsWithAppended(b2, "\n");
      Ok(b2 + "\n")
    case _ => Raised(AttributeError)
  }

  function NoteBlockOf(host: Host): (Json, nat) -> Outcome<string>
  {
    (item: Json, idx: nat) => NoteBlock(item, idx, host)
  }

  /**
   * The notes listing: the bare header when `items` is falsy; otherwise the
   * header and a blank line, then the numbered note blocks, raising exactly
   * when `items` cannot be iterated or one of its blocks raises.
   */
  function NotesText(emoji: string, content: Json, items: Json, host: Host): (r: Outcome<string>)
    ensures !Truthy(items) ==> r == Ok(Header(emoji, content, host.printer))
    ensures Truthy(items) ==>
              (r.Ok? <==> Iterate(items).Ok? && forall i :: 0 <= i < |Iterate(items).value| ==>
                            NoteBlock(Iterate(items).value[i], i + 1, host).Ok?)
    ensures Truthy(items) && r.Ok? ==> Header(emoji, content, host.printer) + "\n\n" <= r.value
  {
    if !Truthy(items) then Ok(Header(emoji, content, host.printer))
    else
      var xs :- Iterate(items);
      NumberedOk(Header(emoji, content, host.printer) + "\n\n", xs, NoteBlockOf(host));
      Numbered(Header(emoji, content, host.printer) + "\n\n", xs, NoteBlockOf(host))
  }

  /** The body of `_format_notes`'s loop for one item. */
  method RenderNote(item: Json, idx: nat, host: Host) returns (r: Outcome<string>)
    ensures r == NoteBlock(item, idx, host)
  {
    var p := host.printer;
    if !item.JObj? {
      return Raised(AttributeError);
    }
    var f := item.fields;
    var title := NoteTitle(f);
    var body := NoteBody(f);
    var created := NoteCreated(f);

    var block := Numbering(idx) + Show(title, p) + "\n";
    if Truthy(body) {
      var bodyText := Truncate(body, 150);
      if bodyText.Raised? {
        return Raised(bodyText.error);
      }
      block := block + ("   " + Show(bodyText.value, p) + "\n");
    }
    if Truthy(created) {
      block := block + ("   🕐 " + FormatDate(created, host) + "\n");
    }
    block := block + "\n";
    return Ok(block);
  }

  method FormatNotes(emoji: string, content: Json, items: Json, host: Host) returns (r: Outcome<string>)
    ensures r == NotesText(emoji, content, items, host)
  {
    if !Truthy(items) {
      return Ok(Header(emoji, content, host.printer));
    }
    var formatted := Header(emoji, content, host.printer) + "\n\n";
    ghost var head := formatted;
    var xs :- Iterate(items);
    for i := 0 to |xs|
      invariant Numbered(head, xs[..i], NoteBlockOf(host)) == Ok(formatted)
    {
      var block := RenderNote(xs[i], i + 1, host);
      if block.Raised? {
        NumberedStops(head, xs, i, NoteBlockOf(host));
        return Raised(block.error);
      }
      NumberedStep(head, xs, i, NoteBlockOf(host));
      formatted := formatted + block.value;
    }
    assert xs[..|xs|] == xs;
    return Ok(formatted);
  }

  // ---------------------------------------------------------------------------
  // Tasks (`_format_tasks`)

  /** `'✅' if status in [True, 'completed', 'done'] else '⬜'` (list membership uses `==`). */
  function StatusIcon(status: Json): (icon: string)
    ensures icon == "✅" || icon == "⬜"
    ensures icon == "✅" <==> status in {JBool(true), JInt(1), JFloat(1.0), JStr("completed"), JStr("done")}
  {
    if EqualsTrue(status) || status == JStr("completed") || status == JStr("done") then "✅" else "⬜"
  }

  const PriorityIcons: map<string, string> := map["high" := "🔴", "medium" := "🟡", "low" := "🟢"]

  /** `priority_icons.get(str(priority).lower(), '⚪')`. */
  function PriorityIcon(priority: Json, p: Printer): (icon: string)
    ensures icon == "🔴" || icon == "🟡" || icon == "🟢" || icon == "⚪"
    ensures icon == "⚪" <==> Lower(Show(priority, p)) != "high" && Lower(Show(priority, p)) != "medium"
                              && Lower(Show(priority, p)) != "low"
  {
    var key := Lower(Show(priority, p));
    if key in PriorityIcons then PriorityIcons[key] else "⚪"
  }

  /** `a` and `b` are equal up to the case of ASCII letters. */
  predicate SameIgnoringCase(a: string, b: string)
  {
    |a| == |b| && forall i :: 0 <= i < |a| ==> LowerChar(a[i]) == LowerChar(b[i])
  }

  lemma LowerIsWord(s: string, word: string)
    requires forall i :: 0 <= i < |word| ==> LowerChar(word[i]) == word[i]
    ensures Lower(s) == word <==> SameIgnoringCase(s, word)
  {
    if SameIgnoringCase(s, word) {
      assert forall i :: 0 <= i < |s| ==> Lower(s)[i] == word[i];
    }
  }

  /**
   * A str priority picks its icon whatever the case of its letters: red for
   * "high", yellow for "medium", green for "low", white for anything else.
   */
  lemma PriorityIconIgnoresCase(s: string, p: Printer)
    ensures PriorityIcon(JStr(s), p) == "🔴" <==> SameIgnoringCase(s, "high")
    ensures PriorityIcon(JStr(s), p) == "🟡" <==> SameIgnoringCase(s, "medium")
    ensures PriorityIcon(JStr(s), p) == "🟢" <==> SameIgnoringCase(s, "low")
    ensures PriorityIcon(JStr(s), p) == "⚪" <==>
              !SameIgnoringCase(s, "high") && !SameIgnoringCase(s, "medium") && !SameIgnoringCase(s, "low")
  {
    LowerIsWord(s, "high");
    LowerIsWord(s, "medium");
    LowerIsWord(s, "low");
  }

  function TaskTitle(f: seq<(string, Json)>): Json { Get(f, "title", Get(f, "name", JStr("Sans titre"))) }
  function TaskStatus(f: seq<(string, Json)>): Json { Get(f, "status", Get(f, "completed", JBool(false))) }
  function TaskDue(f: seq<(string, Json)>): Json { Get(f, "due_date", Get(f, "due", JStr(""))) }
  function TaskPriority(f: seq<(string, Json)>): Json { Get(f, "priority", JStr("")) }

  /**
   * One task's block: status icon, number and title, then the priority with
   * its icon and the due date, each only when present, then a blank line.
   * It raises exactly when the item is not a dict.
   */
  function TaskBlock(item: Json, idx: nat, host: Host): (r: Outcome<string>)
    ensures r.Ok? <==> item.JObj?
    ensures !item.JObj? ==> r == Raised(AttributeError)
    ensures r.Ok? ==>
              StatusIcon(TaskStatus(item.fields)) + " " + Numbering(idx)
                + Show(TaskTitle(item.fields), host.printer) + "\n" <= r.value
    ensures r.Ok? ==> EndsWith(r.value, "\n")
  {
    match item
    case JObj(f) =>
      var p := host.printer;
      var priority := TaskPriority(f);
      var b0 := StatusIcon(TaskStatus(f)) + " " + Numbering(idx) + Show(TaskTitle(f), p) + "\n";
      var b1 := AppendIf(b0, priority, "   " + PriorityIcon(priority, p) + " Priorité: " + Show(priority, p) + "\n");
      var b2 := AppendIf(b1, TaskDue(f), "   📅 Échéance: " + FormatDate(TaskDue(f), host) + "\n");
      EndsWithAppended(b2, "\n");
      Ok(b2 + "\n")
    case _ => Raised(AttributeError)
  }

  function TaskBlockOf(host: Host): (Json, nat) -> Outcome<string>
  {
    (item: Json, idx: nat) => TaskBlock(item, idx, host)
  }

  /**
   * The task listing: the bare header when `items` is falsy; otherwise the
   * header and a blank line, then the numbered task blocks, raising exactly
   * when `items` cannot be iterated or holds something other than a dict.
   */
  function TasksText(emoji: string, content: Json, items: Json, host: Host): (r: Outcome<string>)
    ensures !Truthy(items) ==> r == Ok(Header(emoji, content, host.printer))
    ensures Truthy(items) ==>
              (r.Ok? <==> Iterate(items).Ok? && forall i :: 0 <= i < |Iterate(items).value| ==>
                            Iterate(items).value[i].JObj?)
    ensures Truthy(items) && r.Ok? ==> Header(emoji, content, host.printer) + "\n\n" <= r.value
  {
    if !Truthy(items) then Ok(Header(emoji, content, host.printer))
    else
      var xs :- Iterate(items);
      NumberedOk(Header(emoji, content, host.printer) + "\n\n", xs, TaskBlockOf(host));
      Numbered(Header(emoji, content, host.printer) + "\n\n", xs, TaskBlockOf(host))
  }

  /** The body of `_format_tasks`'s loop for one item. */
  method RenderTask(item: Json, idx: nat, host: Host) returns (r: Outcome<string>)
    ensures r == TaskBlock(item, idx, host)
  {
    var p := host.printer;
    if !item.JObj? {
      return Raised(AttributeError);
    }
    var f := item.fields;
    var title := TaskTitle(f);
    var status := TaskStatus(f);
    var dueDate := TaskDue(f);
    var priority := TaskPriority(f);

    var statusIcon := if EqualsTrue(status) || status == JStr("completed") || status == JStr("done") then "✅" else "⬜";
    var block := statusIcon + " " + Numbering(idx) + Show(title, p) + "\n";
    if Truthy(priority) {
      var key := Lower(Show(priority, p));
      var priorityIcon := if key in PriorityIcons then PriorityIcons[key] else "⚪";
      block := block + ("   " + priorityIcon + " Priorité: " + Show(priority, p) + "\n");
    }
    if Truthy(dueDate) {
      block := block + ("   📅 Échéance: " + FormatDate(dueDate, host) + "\n");
    }
    block := block + "\n";
    return Ok(block);
  }

  method FormatTasks(emoji: string, content: Json, items: Json, host: Host) returns (r: Outcome<string>)
    ensures r == TasksText(emoji, content, items, host)
  {
    if !Truthy(items) {
      return Ok(Header(emoji, content, host.printer));
    }
    var formatted := Header(emoji, content, host.printer) + "\n\n";
    ghost var head := formatted;
    var xs :- Iterate(items);
    for i := 0 to |xs|
      invariant Numbered(head, xs[..i], TaskBlockOf(host)) == Ok(formatted)
    {
      var block := RenderTask(xs[i], i + 1, host);
      if block.Raised? {
        NumberedStops(head, xs, i, TaskBlockOf(host));
        return Raised(block.error);
      }
      NumberedStep(head, xs, i, TaskBlockOf(host));
      formatted := formatted + block.value;
    }
    assert xs[..|xs|] == xs;
    return Ok(formatted);
  }

  // ---------------------------------------------------------------------------
  // Generic list (`_format_generic_list`)

  const TitleKeys: seq<string> := ["title", "name", "text"]

  /** A field the generic renderer prints on a line of its own: not a title key, and truthy. */
  predicate Shown(field: (string, Json))
  {
    field.0 !in TitleKeys && Truthy(field.1)
  }

  /** `block` followed by `f"   • {key}: {value}\n"` for each shown field, in the dict's order. */
  function AppendKeyLines(block: string, fields: seq<(string, Json)>, p: Printer): (r: string)
    ensures block <= r
  {
    if |fields| == 0 then block
    else
      var before := AppendKeyLines(block, fields[..|fields| - 1], p);
      var field := fields[|fields| - 1];
      if Shown(field) then before + ("   • " + field.0 + ": " + Show(field.1, p) + "\n") else before
  }

  /** No line is added exactly when no field is shown. */
  lemma {:induction false} AppendKeyLinesNone(block: string, fields: seq<(string, Json)>, p: Printer)
    ensures AppendKeyLines(block, fields, p) == block <==> forall i :: 0 <= i < |fields| ==> !Shown(fields[i])
  {
    if |fields| > 0 {
      var init := fields[..|fields| - 1];
      AppendKeyLinesNone(block, init, p);
      assert forall i :: 0 <= i < |init| ==> init[i] == fields[i];
    }
  }

  /** `item.get('title', item.get('name', item.get('text', str(item))))`. */
  function GenericTitle(item: Json, p: Printer): Json
    requires item.JObj?
  {
    var f := item.fields;
    Get(f, "title", Get(f, "name", Get(f, "text", JStr(Show(item, p)))))
  }

  /**
   * One generic item: a str prints as a numbered line, a dict as its numbered
   * title and one line per shown field, anything else as nothing; every block
   * ends with a blank line.  It never raises.
   */
  function GenericBlock(item: Json, idx: nat, p: Printer): (block: string)
    ensures item.JStr? ==> block == Numbering(idx) + item.s + "\n\n"
    ensures item.JObj? ==> Numbering(idx) + Show(GenericTitle(item, p), p) + "\n" <= block
    ensures !item.JStr? && !item.JObj? ==> block == "\n"
    ensures EndsWith(block, "\n")
  {
    match item
    case JStr(s) =>
      EndsWithAppended(Numbering(idx) + s + "\n", "\n");
      Numbering(idx) + s + "\n" + "\n"
    case JObj(f) =>
      var lines := AppendKeyLines(Numbering(idx) + Show(GenericTitle(item, p), p) + "\n", f, p);
      EndsWithAppended(lines, "\n");
      lines + "\n"
    case _ => "\n"
  }

  function GenericBlockOf(p: Printer): (Json, nat) -> Outcome<string>
  {
    (item: Json, idx: nat) => Ok(GenericBlock(item, idx, p))
  }

  /** The generic listing: header, blank line, blocks; it raises only when `items` cannot be iterated. */
  function GenericListText(emoji: string, content: Json, items: Json, p: Printer): (r: Outcome<string>)
    ensures r.Ok? <==> Iterate(items).Ok?
    ensures r.Ok? ==> Header(emoji, content, p) + "\n\n" <= r.value
  {
    var xs :- Iterate(items);
    NumberedOk(Header(emoji, content, p) + "\n\n", xs, GenericBlockOf(p));
    Numbered(Header(emoji, content, p) + "\n\n", xs, GenericBlockOf(p))
  }

  /** The body of `_format_generic_list`'s loop for one item, with its inner loop over the dict's fields. */
  method RenderGeneric(item: Json, idx: nat, p: Printer) returns (block: string)
    ensures block == GenericBlock(item, idx, p)
  {
    block := "";
    if item.JStr? {
      block := Numbering(idx) + item.s + "\n";
    } else if item.JObj? {
      var title := GenericTitle(item, p);
      block := Numbering(idx) + Show(title, p) + "\n";
      ghost var top := block;
      var fields := item.fields;
      for j := 0 to |fields|
        invariant block == AppendKeyLines(top, fields[..j], p)
      {
        var (key, value) := fields[j];
        if key !in TitleKeys && Truthy(value) {
          block := block + ("   • " + key + ": " + Show(value, p) + "\n");
        }
        assert fields[..j + 1][..j] == fields[..j];
      }
      assert fields[..|fields|] == fields;
    }
    block := block + "\n";
  }

  method FormatGenericList(emoji: string, content: Json, items: Json, p: Printer) returns (r: Outcome<string>)
    ensures r == GenericListText(emoji, content, items, p)
  {
    var formatted := Header(emoji, content, p) + "\n\n";
    ghost var head := formatted;
    var xs :- Iterate(items);
    for i := 0 to |xs|
      invariant Numbered(head, xs[..i], GenericBlockOf(p)) == Ok(formatted)
    {
      var block := RenderGeneric(xs[i], i + 1, p);
      NumberedStep(head, xs, i, GenericBlockOf(p));
      formatted := formatted + block;
    }
    assert xs[..|xs|] == xs;
    return Ok(formatted);
  }

}
