/**
 * Delivery of a long reply to a chat channel: a short reply is sent as it
 * is, a very long one as a text file, and one in between is packed line by
 * line into messages that fit the channel's length limit.
 */
module ResponseHandler {

  import opened Wrappers
  import opened Strings
  import opened Utf8

  const SuccessMessage: string := "✅ Action effectuée avec succès"
  const FileCaption: string := "📄 La réponse est trop longue, voici le fichier:"

  /** The defaults of `send_long_response`'s keyword arguments. */
  const DefaultMaxLength: int := 2000
  const DefaultFileThreshold: int := 4000
  const DefaultFilename: string := "response.txt"

  /** What one `channel.send` call posts: a text message, or a caption with an attached file. */
  datatype Sent = Text(text: string) | File(caption: string, name: string, body: seq<byte>)

  /** A chat channel, seen through the messages posted to it, oldest first. */
  class Channel {
    var sent: seq<Sent>

    constructor ()
      ensures sent == []
    {
      sent := [];
    }

    /** `await channel.send(...)`. */
    method Send(m: Sent)
      modifies this
      ensures sent == old(sent) + [m]
    {
      sent := sent + [m];
    }
  }

  /** Each string sent as a text message, in order. */
  function Texts(messages: seq<string>): (r: seq<Sent>)
    ensures |r| == |messages| && forall i :: 0 <= i < |r| ==> r[i] == Text(messages[i])
  {
    seq(|messages|, i requires 0 <= i < |messages| => Text(messages[i]))
  }

  // ---------------------------------------------------------------------------
  // Packing lines into messages (`_send_split_messages`)

  /** A message fits when it is within the limit, or is a single line too long to cut. */
  predicate Fits(message: string, maxLength: int)
  {
    |message| <= maxLength || '\n' !in message
  }

  /** The messages sent so far and the chunk being filled. */
  datatype PackState = PackState(messages: seq<string>, chunk: string)

  /**
   * The packing loop after it has seen `lines`: a line that would push the
   * chunk past `maxLength` (counting the joining newline) first flushes a
   * non-empty chunk; the line is then appended after a newline, or starts
   * the chunk when it is empty.
   */
  function Pack(lines: seq<string>, maxLength: int): (st: PackState)
    requires forall i :: 0 <= i < |lines| ==> '\n' !in lines[i]
    ensures forall i :: 0 <= i < |st.messages| ==> st.messages[i] != "" && Fits(st.messages[i], maxLength)
    ensures Fits(st.chunk, maxLength)
  {
    if |lines| == 0 then PackState([], "")
    else
      var before := Pack(lines[..|lines| - 1], maxLength);
      var line := lines[|lines| - 1];
      var flushed :=
        if |before.chunk| + |line| + 1 > maxLength && before.chunk != "" then PackState(before.messages + [before.chunk], "")
        else before;
      if flushed.chunk != "" then PackState(flushed.messages, flushed.chunk + "\n" + line)
      else PackState(flushed.messages, line)
  }

  /** The messages `_send_split_messages` sends: the packed ones, then the last chunk if it is not empty. */
  function SplitMessages(content: string, maxLength: int): (messages: seq<string>)
    ensures forall i :: 0 <= i < |messages| ==> messages[i] != "" && Fits(messages[i], maxLength)
  {
    var st := Pack(Split(content, '\n'), maxLength);
    if st.chunk != "" then st.messages + [st.chunk] else st.messages
  }

  method SendSplitMessages(channel: Channel, content: string, maxLength: int)
    modifies channel
    ensures channel.sent == old(channel.sent) + Texts(SplitMessages(content, maxLength))
  {
    var lines := Split(content, '\n');
    var currentChunk := "";
    var messageCount := 1;
    ghost var sentTexts: seq<string> := [];
    for i := 0 to |lines|
      invariant Pack(lines[..i], maxLength) == PackState(sentTexts, currentChunk)
      invariant channel.sent == old(channel.sent) + Texts(sentTexts)
      invariant messageCount == |sentTexts| + 1
    {
      var line := lines[i];
      if |currentChunk| + |line| + 1 > maxLength {
        if currentChunk != "" {
          channel.Send(Text(currentChunk));
          sentTexts := sentTexts + [currentChunk];
          messageCount := messageCount + 1;
          currentChunk := "";
        }
      }
      if currentChunk != "" {
        currentChunk := currentChunk + "\n" + line;
      } else {
        currentChunk := line;
      }
      assert lines[..i + 1][..i] == lines[..i];
    }
    assert lines[..|lines|] == lines;
    if currentChunk != "" {
      channel.Send(Text(currentChunk));
      sentTexts := sentTexts + [currentChunk];
    }
    assert Texts(SplitMessages(content, maxLength)) == Texts(sentTexts);
  }

  // ---------------------------------------------------------------------------
  // The three-way choice (`send_long_response`, `_send_as_file`)

  /** Everything `send_long_response` posts, in order. */
  function Delivery(content: string, maxLength: int, fileThreshold: int, filename: string): (r: seq<Sent>)
    ensures forall i :: 0 <= i < |r| && r[i].Text? ==> r[i].text != ""
    ensures content != "" ==> forall i :: 0 <= i < |r| && r[i].Text? ==> Fits(r[i].text, maxLength)
    ensures (exists i :: 0 <= i < |r| && r[i].File?) ==> r == [File(FileCaption, filename, Encode(content))]
  {
    if content == "" then [Text(SuccessMessage)]
    else if |content| <= maxLength then [Text(content)]
    else if |content| > fileThreshold then [File(FileCaption, filename, Encode(content))]
    else Texts(SplitMessages(content, maxLength))
  }

  method SendAsFile(channel: Channel, content: string, filename: string)
    modifies channel
    ensures channel.sent == old(channel.sent) + [File(FileCaption, filename, Encode(content))]
  {
    var fileContent := Encode(content);
    channel.Send(File(FileCaption, filename, fileContent));
  }

  method SendLongResponse(channel: Channel, content: string, maxLength: int, fileThreshold: int, filename: string)
    modifies channel
    ensures channel.sent == old(channel.sent) + Delivery(content, maxLength, fileThreshold, filename)
  {
    if content == "" {
      channel.Send(Text(SuccessMessage));
      return;
    }
    var contentLength := |content|;
    if contentLength <= maxLength {
      channel.Send(Text(content));
      return;
    }
    if contentLength > fileThreshold {
      SendAsFile(channel, content, filename);
      return;
    }
    SendSplitMessages(channel, content, maxLength);
  }

  // ---------------------------------------------------------------------------
  // Which lines each message holds

  /** Line `i` lies inside one of the runs. */
  predicate InRun(runs: seq<(nat, nat)>, i: int)
  {
    exists k :: 0 <= k < |runs| && runs[k].0 <= i < runs[k].1
  }

  /**
   * Message k is the lines `runs[k].0` up to (not including) `runs[k].1`
   * joined by newlines, and each run starts at a non-empty line.
   */
  predicate RunsJoin(lines: seq<string>, messages: seq<string>, runs: seq<(nat, nat)>)
  {
    && |runs| == |messages|
    && forall k :: 0 <= k < |runs| ==>
         runs[k].0 < runs[k].1 <= |lines| && lines[runs[k].0] != ""
         && messages[k] == Join("\n", lines[runs[k].0..runs[k].1])
  }

  /** The runs follow each other in order without overlapping, and all end by `bound`. */
  predicate InOrder(runs: seq<(nat, nat)>, bound: nat)
  {
    && (forall j, k :: 0 <= j < k < |runs| ==> runs[j].1 <= runs[k].0)
    && (forall k :: 0 <= k < |runs| ==> runs[k].1 <= bound)
  }

  /** Every line before `upTo` that no run holds is empty. */
  predicate GapsEmpty(lines: seq<string>, runs: seq<(nat, nat)>, upTo: nat)
    requires upTo <= |lines|
  {
    forall i :: 0 <= i < upTo && !InRun(runs, i) ==> lines[i] == ""
  }

  /**
   * The messages are the newline-joins of consecutive, non-overlapping runs
   * of `lines`, in order, and only empty lines are left out of every run.
   */
  predicate Runs(lines: seq<string>, messages: seq<string>, runs: seq<(nat, nat)>)
  {
    RunsJoin(lines, messages, runs) && InOrder(runs, |lines|) && GapsEmpty(lines, runs, |lines|)
  }

  /** Where the flushed messages of `Pack` lie, and the line the pending chunk starts at. */
  datatype Cuts = Cuts(runs: seq<(nat, nat)>, start: nat)

  /** The runs of `Pack(lines, maxLength)`, computed alongside it. */
  function PackCuts(lines: seq<string>, maxLength: int): Cuts
    requires forall i :: 0 <= i < |lines| ==> '\n' !in lines[i]
  {
    if |lines| == 0 then Cuts([], 0)
    else
      var n := |lines| - 1;
      var before := Pack(lines[..n], maxLength);
      var c := PackCuts(lines[..n], maxLength);
      var line := lines[n];
      var flush := |before.chunk| + |line| + 1 > maxLength && before.chunk != "";
      var runs := if flush then c.runs + [(c.start, n)] else c.runs;
      if before.chunk != "" && !flush then Cuts(runs, c.start)
      else if line != "" then Cuts(runs, n)
      else Cuts(runs, n + 1)
  }

  /**
   * After the first `n` of `lines`: the flushed messages are runs of them,
   * the pending chunk is the run from `start` to `n` (or empty with `start`
   * at `n`), and the lines outside all runs before `start` are empty.
   */
  predicate PackInv(lines: seq<string>, n: nat, st: PackState, c: Cuts)
  {
    && n <= |lines| && c.start <= n
    && RunsJoin(lines, st.messages, c.runs) && InOrder(c.runs, c.start)
    && GapsEmpty(lines, c.runs, c.start)
    && (st.chunk == "" ==> c.start == n)
    && (st.chunk != "" ==> c.start < n && lines[c.start] != "" && st.chunk == Join("\n", lines[c.start..n]))
  }

  /** Adding a run `(s, e)` after the others keeps them joined and in order. */
  lemma AddRun(lines: seq<string>, messages: seq<string>, runs: seq<(nat, nat)>, s: nat, e: nat, bound: nat)
    requires RunsJoin(lines, messages, runs) && InOrder(runs, s)
    requires s < e <= bound <= |lines| && lines[s] != ""
    ensures RunsJoin(lines, messages + [Join("\n", lines[s..e])], runs + [(s, e)])
    ensures InOrder(runs + [(s, e)], bound)
  {
  }

  /** Once a run `(s, e)` is added, the lines left out before `e` are those left out before `s`. */
  lemma GapsCovered(lines: seq<string>, runs: seq<(nat, nat)>, s: nat, e: nat)
    requires s <= e <= |lines| && GapsEmpty(lines, runs, s)
    ensures GapsEmpty(lines, runs + [(s, e)], e)
  {
    var runs' := runs + [(s, e)];
    forall i | s <= i < e
      ensures InRun(runs', i)
    {
      assert runs'[|runs|] == (s, e);
    }
    forall i | 0 <= i < s && InRun(runs, i)
      ensures InRun(runs', i)
    {
      var k :| 0 <= k < |runs| && runs[k].0 <= i < runs[k].1;
      assert runs'[k] == runs[k];
    }
  }

  /** An empty line can be left out. */
  lemma GapsExtend(lines: seq<string>, runs: seq<(nat, nat)>, upTo: nat)
    requires upTo < |lines| && GapsEmpty(lines, runs, upTo) && lines[upTo] == ""
    ensures GapsEmpty(lines, runs, upTo + 1)
  {
  }

  /** Joining one more line. */
  lemma JoinExtend(lines: seq<string>, s: nat, n: nat)
    requires s < n < |lines|
    ensures Join("\n", lines[s..n + 1]) == Join("\n", lines[s..n]) + "\n" + lines[n]
  {
    assert lines[s..n + 1] == lines[s..n] + [lines[n]];
    JoinAppend("\n", lines[s..n], [lines[n]]);
  }

  /** A non-empty line that does not fit flushes the pending chunk as one more run and starts the next one. */
  lemma StepFlush(lines: seq<string>, n: nat, before: PackState, c: Cuts)
    requires n < |lines| && PackInv(lines, n, before, c) && before.chunk != "" && lines[n] != ""
    ensures PackInv(lines, n + 1, PackState(before.messages + [before.chunk], lines[n]),
                    Cuts(c.runs + [(c.start, n)], n))
  {
    AddRun(lines, before.messages, c.runs, c.start, n, n);
    GapsCovered(lines, c.runs, c.start, n);
    assert Join("\n", lines[n..n + 1]) == lines[n] by {
      assert lines[n..n + 1] == [lines[n]];
    }
  }

  /** An empty line that does not fit flushes the pending chunk as one more run and is passed over. */
  lemma StepFlushEmpty(lines: seq<string>, n: nat, before: PackState, c: Cuts)
    requires n < |lines| && PackInv(lines, n, before, c) && before.chunk != "" && lines[n] == ""
    ensures PackInv(lines, n + 1, PackState(before.messages + [before.chunk], ""),
                    Cuts(c.runs + [(c.start, n)], n + 1))
  {
    AddRun(lines, before.messages, c.runs, c.start, n, n + 1);
    GapsCovered(lines, c.runs, c.start, n);
    GapsExtend(lines, c.runs + [(c.start, n)], n);
  }

  /** A line that fits is joined to the pending chunk, whose run grows by one line. */
  lemma StepExtend(lines: seq<string>, n: nat, before: PackState, c: Cuts)
    requires n < |lines| && PackInv(lines, n, before, c) && before.chunk != ""
    ensures PackInv(lines, n + 1, PackState(before.messages, before.chunk + "\n" + lines[n]), c)
  {
    JoinExtend(lines, c.start, n);
  }

  /** With no pending chunk, a non-empty line starts one and an empty line is passed over. */
  lemma StepStart(lines: seq<string>, n: nat, before: PackState, c: Cuts)
    requires n < |lines| && PackInv(lines, n, before, c) && before.chunk == ""
    ensures PackInv(lines, n + 1, PackState(before.messages, lines[n]),
                    if lines[n] != "" then Cuts(c.runs, n) else Cuts(c.runs, n + 1))
  {
    if lines[n] != "" {
      assert lines[n..n + 1] == [lines[n]];
    } else {
      GapsExtend(lines, c.runs, n);
    }
  }

  /** One more line keeps the invariant. */
  lemma PackStep(lines: seq<string>, n: nat, maxLength: int)
    requires forall i :: 0 <= i < |lines| ==> '\n' !in lines[i]
    requires n < |lines|
    requires PackInv(lines, n, Pack(lines[..n], maxLength), PackCuts(lines[..n], maxLength))
    ensures PackInv(lines, n + 1, Pack(lines[..n + 1], maxLength), PackCuts(lines[..n + 1], maxLength))
  {
    var before, c := Pack(lines[..n], maxLength), PackCuts(lines[..n], maxLength);
    assert lines[..n + 1][..n] == lines[..n];
    assert lines[..n + 1][n] == lines[n];
    if |before.chunk| + |lines[n]| + 1 > maxLength && before.chunk != "" {
      if lines[n] != "" {
        StepFlush(lines, n, before, c);
      } else {
        StepFlushEmpty(lines, n, before, c);
      }
    } else if before.chunk != "" {
      StepExtend(lines, n, before, c);
    } else {
      StepStart(lines, n, before, c);
    }
  }

  /** The invariant holds after every prefix. */
  lemma {:induction false} PackInvariant(lines: seq<string>, n: nat, maxLength: int)
    requires forall i :: 0 <= i < |lines| ==> '\n' !in lines[i]
    requires n <= |lines|
    ensures PackInv(lines, n, Pack(lines[..n], maxLength), PackCuts(lines[..n], maxLength))
  {
    if n > 0 {
      PackInvariant(lines, n - 1, maxLength);
      PackStep(lines, n - 1, maxLength);
    }
  }

  /** The runs of the final messages: the flushed ones, then the pending chunk's when it is not empty. */
  lemma FinalRuns(lines: seq<string>, st: PackState, c: Cuts)
    requires PackInv(lines, |lines|, st, c)
    ensures st.chunk != "" ==> Runs(lines, st.messages + [st.chunk], c.runs + [(c.start, |lines|)])
    ensures st.chunk == "" ==> Runs(lines, st.messages, c.runs)
  {
    if st.chunk != "" {
      AddRun(lines, st.messages, c.runs, c.start, |lines|, |lines|);
      GapsCovered(lines, c.runs, c.start, |lines|);
    }
  }

  /**
   * Whatever the content, the messages sent are the newline-joins of
   * consecutive, non-overlapping runs of its lines, in order, each run
   * starting at a non-empty line; every line left out is empty.
   */
  lemma SplitMessagesAreRuns(content: string, maxLength: int)
    ensures exists runs :: Runs(Split(content, '\n'), SplitMessages(content, maxLength), runs)
  {
    var lines := Split(content, '\n');
    var runs := PackRuns(lines, maxLength);
    assert Runs(lines, SplitMessages(content, maxLength), runs);
  }

  /** The runs behind the messages packed from `lines`. */
  lemma PackRuns(lines: seq<string>, maxLength: int) returns (runs: seq<(nat, nat)>)
    requires forall i :: 0 <= i < |lines| ==> '\n' !in lines[i]
    ensures var st := Pack(lines, maxLength);
            Runs(lines, if st.chunk != "" then st.messages + [st.chunk] else st.messages, runs)
  {
    PackInvariant(lines, |lines|, maxLength);
    assert lines[..|lines|] == lines;
    var st, c := Pack(lines, maxLength), PackCuts(lines, maxLength);
    FinalRuns(lines, st, c);
    runs := if st.chunk != "" then c.runs + [(c.start, |lines|)] else c.runs;
  }

  // ---------------------------------------------------------------------------
  // Properties

  /** Empty content posts the success text and nothing else. */
  lemma EmptyContentDelivery(maxLength: int, fileThreshold: int, filename: string)
    ensures Delivery("", maxLength, fileThreshold, filename) == [Text(SuccessMessage)]
  {
  }

  /** Content within the limit is posted as one message, before the file check is made. */
  lemma ShortContentDelivery(content: string, maxLength: int, fileThreshold: int, filename: string)
    requires content != "" && |content| <= maxLength
    ensures Delivery(content, maxLength, fileThreshold, filename) == [Text(content)]
  {
  }

  /** Content over both limits is posted once, as a captioned file holding its UTF-8 bytes. */
  lemma LongContentDelivery(content: string, maxLength: int, fileThreshold: int, filename: string)
    requires content != "" && |content| > maxLength && |content| > fileThreshold
    ensures var r := Delivery(content, maxLength, fileThreshold, filename);
            |r| == 1 && r[0].File? && r[0].caption == FileCaption && r[0].name == filename
            && Decode(r[0].body) == Some(content)
  {
    DecodeEncode(content);
  }

  /** With the default limits, a reply of up to 2000 characters is one message. */
  lemma DefaultShortReply(content: string)
    requires content != "" && |content| <= 2000
    ensures Delivery(content, DefaultMaxLength, DefaultFileThreshold, DefaultFilename) == [Text(content)]
  {
  }

  /**
   * With the default limits, a reply of 2001 to 4000 characters is split
   * into messages of at most 2000 characters (a longer line goes alone).
   */
  lemma DefaultSplitReply(content: string)
    requires 2000 < |content| <= 4000
    ensures Delivery(content, DefaultMaxLength, DefaultFileThreshold, DefaultFilename) == Texts(SplitMessages(content, 2000))
  {
  }

  /** With the default limits, a reply over 4000 characters is one "response.txt" file. */
  lemma DefaultFileReply(content: string)
    requires |content| > 4000
    ensures Delivery(content, DefaultMaxLength, DefaultFileThreshold, DefaultFilename)
            == [File(FileCaption, "response.txt", Encode(content))]
  {
  }

  /** `sep.join(a + [x + sep + y])` is `sep.join(a + [x]) + sep + y`. */
  lemma JoinExtendLast(sep: string, a: seq<string>, x: string, y: string)
    ensures Join(sep, a + [x + sep + y]) == Join(sep, a + [x]) + sep + y
  {
    if |a| > 0 {
      JoinAppend(sep, a, [x + sep + y]);
      JoinAppend(sep, a, [x]);
    }
  }

  /**
   * Without empty lines nothing is dropped: the messages so far and the
   * current chunk, joined by newlines, are the lines seen so far.
   */
  lemma {:induction false} PackKeepsLines(lines: seq<string>, maxLength: int)
    requires |lines| >= 1
    requires forall i :: 0 <= i < |lines| ==> '\n' !in lines[i] && lines[i] != ""
    ensures Pack(lines, maxLength).chunk != ""
    ensures Join("\n", Pack(lines, maxLength).messages + [Pack(lines, maxLength).chunk]) == Join("\n", lines)
  {
    var init, line := lines[..|lines| - 1], lines[|lines| - 1];
    assert lines == init + [line];
    if |init| > 0 {
      PackKeepsLines(init, maxLength);
      var before := Pack(init, maxLength);
      JoinAppend("\n", init, [line]);
      if |before.chunk| + |line| + 1 > maxLength {
        JoinAppend("\n", before.messages + [before.chunk], [line]);
        assert before.messages + [before.chunk] + [line] == (before.messages + [before.chunk]) + [line];
      } else {
        JoinExtendLast("\n", before.messages, before.chunk, line);
      }
    }
  }

  /** Content without empty lines is posted whole: the messages joined by newlines give it back. */
  lemma SplitRoundTrip(content: string, maxLength: int)
    requires forall i :: 0 <= i < |Split(content, '\n')| ==> Split(content, '\n')[i] != ""
    ensures Join("\n", SplitMessages(content, maxLength)) == content
  {
    PackKeepsLines(Split(content, '\n'), maxLength);
    SplitJoin(content, '\n');
  }

  /** Only empty lines never fill a chunk, so nothing is sent. */
  lemma {:induction false} PackEmptyLines(lines: seq<string>, maxLength: int)
    requires forall i :: 0 <= i < |lines| ==> lines[i] == ""
    ensures Pack(lines, maxLength) == PackState([], "")
  {
    if |lines| > 0 {
      PackEmptyLines(lines[..|lines| - 1], maxLength);
    }
  }

  /** Content made only of newlines sends no message at all. */
  lemma OnlyNewlinesSendNothing(content: string, maxLength: int)
    requires forall i :: 0 <= i < |content| ==> content[i] == '\n'
    ensures SplitMessages(content, maxLength) == []
  {
    SplitOnlySeparators(content, '\n');
    PackEmptyLines(Split(content, '\n'), maxLength);
  }

  /** A single non-empty line is sent as one message, however long it is. */
  lemma SingleLineSentWhole(content: string, maxLength: int)
    requires content != "" && '\n' !in content
    ensures SplitMessages(content, maxLength) == [content]
  {
    SplitWithoutSeparator(content, '\n');
    var lines := Split(content, '\n');
    assert lines[..0] == [];
    assert Pack(lines, maxLength) == PackState([], content);
  }
}
