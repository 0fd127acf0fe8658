/**
 * How the bot routes an incoming chat message before anything is sent to
 * the workflow engine: messages from itself or other bots are ignored, an
 * allow-list (when one is configured) keeps everyone else out, attachments
 * take precedence over text, and among attachments only audio is
 * transcribed.
 */
module MessageRouting {

  import opened Wrappers
  import opened Strings

  /** The parts of `message.author` the routing looks at. */
  datatype Author = Author(isSelf: bool, isBot: bool, id: int)

  /** An attachment; its content type may be missing. */
  datatype Attachment = Attachment(filename: string, contentType: Option<string>, url: string)

  datatype Message = Message(author: Author, content: string, attachments: seq<Attachment>)

  /** What `on_message` does with a message. */
  datatype Route =
    | Ignored                      // sent by the bot itself or by another bot
    | InternalError(piece: string) // an allow-list entry `int()` rejects; the error is reported in the channel
    | Unauthorized                 // dropped with a warning
    | Attachments(audio: seq<nat>) // the attachments handler, transcribing the attachments at these indices
    | TextMessage(text: string)    // the content is sent to the workflow engine
    | NoContent                    // neither content nor attachments

  /** The allow-list entries read as integers, or the first entry that is not one. */
  datatype Ids = Ids(ids: seq<int>) | BadId(piece: string)

  /**
   * `[int(uid.strip()) for uid in pieces]`: `parseInt` stands for `int()`
   * after stripping, None where it raises.  The first entry that fails stops
   * the comprehension.
   */
  function ParseIds(pieces: seq<string>, parseInt: string -> Option<int>): (r: Ids)
    ensures r.Ids? <==> forall i :: 0 <= i < |pieces| ==> parseInt(pieces[i]).Some?
    ensures r.Ids? ==> |r.ids| == |pieces| && forall i :: 0 <= i < |pieces| ==> r.ids[i] == parseInt(pieces[i]).value
    ensures r.BadId? ==> exists k :: 0 <= k < |pieces| && pieces[k] == r.piece && parseInt(pieces[k]).None?
                           && forall i :: 0 <= i < k ==> parseInt(pieces[i]).Some?
  {
    if |pieces| == 0 then Ids([])
    else match parseInt(pieces[0])
      case None => BadId(pieces[0])
      case Some(id) =>
        var rest := ParseIds(pieces[1..], parseInt);
        if rest.BadId? then
          assert forall i :: 1 <= i < |pieces| ==> pieces[i] == pieces[1..][i - 1];
          rest
        else Ids([id] + rest.ids)
  }

  /** `attachment.content_type and attachment.content_type.startswith('audio/')`. */
  predicate IsAudio(a: Attachment)
  {
    a.contentType.Some? && StartsWith(a.contentType.value, "audio/")
  }

  /** The indices of the audio attachments, in order. */
  function AudioIndices(attachments: seq<Attachment>): (r: seq<nat>)
    ensures forall k :: 0 <= k < |r| ==> r[k] < |attachments| && IsAudio(attachments[r[k]])
    ensures forall i :: 0 <= i < |attachments| && IsAudio(attachments[i]) ==> i in r
    ensures forall j, k :: 0 <= j < k < |r| ==> r[j] < r[k]
  {
    if |attachments| == 0 then []
    else
      var n := |attachments| - 1;
      var before := AudioIndices(attachments[..n]);
      if IsAudio(attachments[n]) then before + [n] else before
  }

  /**
   * The attachment loop of `_handle_audio_attachments`: the indices of the
   * attachments it transcribes; every other one is only logged.
   */
  method SelectAudio(attachments: seq<Attachment>) returns (audio: seq<nat>)
    ensures audio == AudioIndices(attachments)
  {
    audio := [];
    for i := 0 to |attachments|
      invariant audio == AudioIndices(attachments[..i])
    {
      var attachment := attachments[i];
      if attachment.contentType.Some? && StartsWith(attachment.contentType.value, "audio/") {
        audio := audio + [i];
      }
      assert attachments[..i + 1][..i] == attachments[..i];
    }
    assert attachments[..|attachments|] == attachments;
  }

  /**
   * `on_message`.  `allowList` is the configured comma-separated list of
   * user ids, "" when none is configured (an unset and an empty setting are
   * both falsy).
   */
  function RouteMessage(m: Message, allowList: string, parseInt: string -> Option<int>): (r: Route)
    ensures m.author.isSelf || m.author.isBot ==> r == Ignored
    ensures r.Attachments? ==> |m.attachments| > 0 && r.audio == AudioIndices(m.attachments)
    ensures r.TextMessage? ==> m.attachments == [] && r.text == m.content && m.content != ""
  {
    if m.author.isSelf || m.author.isBot then Ignored
    else
      var allowed := if allowList != "" then ParseIds(Split(allowList, ','), parseInt) else Ids([]);
      if allowed.BadId? then InternalError(allowed.piece)
      else if allowList != "" && m.author.id !in allowed.ids then Unauthorized
      else if |m.attachments| > 0 then Attachments(AudioIndices(m.attachments))
      else if m.content != "" then TextMessage(m.content)
      else NoContent
  }

  // ---------------------------------------------------------------------------
  // Properties

  /**
   * A person reaches the handlers exactly when, with an allow-list set,
   * every entry parses and one of them is their id, or when no allow-list
   * is set.
   */
  lemma AdmittedIffListed(m: Message, allowList: string, parseInt: string -> Option<int>)
    requires !m.author.isSelf && !m.author.isBot
    ensures var r := RouteMessage(m, allowList, parseInt);
            var pieces := Split(allowList, ',');
            (r.Attachments? || r.TextMessage? || r.NoContent?) <==>
              (allowList == "" ||
               ((forall i :: 0 <= i < |pieces| ==> parseInt(pieces[i]).Some?) &&
                exists i :: 0 <= i < |pieces| && parseInt(pieces[i]) == Some(m.author.id)))
  {
    var pieces := Split(allowList, ',');
    if allowList != "" {
      var allowed := ParseIds(pieces, parseInt);
      if allowed.Ids? {
        ListedIff(pieces, parseInt, m.author.id);
      }
    }
  }

  /** With every entry parsed, an id is among the parsed ids exactly when some entry parses to it. */
  lemma ListedIff(pieces: seq<string>, parseInt: string -> Option<int>, id: int)
    requires ParseIds(pieces, parseInt).Ids?
    ensures id in ParseIds(pieces, parseInt).ids <==> exists i :: 0 <= i < |pieces| && parseInt(pieces[i]) == Some(id)
  {
    var ids := ParseIds(pieces, parseInt).ids;
    if id in ids {
      var i :| 0 <= i < |ids| && ids[i] == id;
      assert parseInt(pieces[i]) == Some(id);
    }
    if exists i :: 0 <= i < |pieces| && parseInt(pieces[i]) == Some(id) {
      var i :| 0 <= i < |pieces| && parseInt(pieces[i]) == Some(id);
      assert ids[i] == id;
    }
  }

  /** A malformed allow-list entry is reported to everyone but bots, before attachments or text are looked at. */
  lemma BadEntryReported(m: Message, allowList: string, parseInt: string -> Option<int>, k: nat)
    requires !m.author.isSelf && !m.author.isBot && allowList != ""
    requires k < |Split(allowList, ',')| && parseInt(Split(allowList, ',')[k]).None?
    ensures RouteMessage(m, allowList, parseInt).InternalError?
  {
    assert ParseIds(Split(allowList, ','), parseInt).BadId?;
  }

  /** Without an allow-list, attachments win over text, and text is handled only when there are none. */
  lemma AttachmentsBeforeText(m: Message, parseInt: string -> Option<int>)
    requires !m.author.isSelf && !m.author.isBot
    ensures var r := RouteMessage(m, "", parseInt);
            && (|m.attachments| > 0 ==> r == Attachments(AudioIndices(m.attachments)))
            && (m.attachments == [] && m.content != "" ==> r == TextMessage(m.content))
            && (m.attachments == [] && m.content == "" ==> r == NoContent)
  {
  }

  /** An attachment without a content type, or one outside "audio/", is never transcribed. */
  lemma NonAudioSkipped(attachments: seq<Attachment>, i: nat)
    requires i < |attachments|
    requires attachments[i].contentType.None? || !StartsWith(attachments[i].contentType.value, "audio/")
    ensures i !in AudioIndices(attachments)
  {
  }
}
