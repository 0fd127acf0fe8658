# Discord assistant bot: reply rendering, MIME normalisation and long-message delivery

This project models, in Dafny, the pure core of a Discord bot that forwards
user messages to an n8n workflow and posts the workflow's answer back:

- **Reply rendering** (`bot.py`). The workflow's JSON reply becomes one chat
  string. A list reply stands for its first element. Anything that is not a
  dict is shown in a code block. A dict's `output` is dispatched on `action`
  and `output.type` to a renderer for emails, calendar events, notes, tasks
  or a generic list, to a one-line header, or to a JSON dump. Any exception
  collapses to a fixed fallback text. Each list renderer is modelled twice:
  as a function saying what text it produces, and as a method with the
  source's loop, proved to produce exactly that text.
- **Message routing** (`bot.py`, `on_message`). Messages from bots are
  ignored. An allow-list keeps unknown users out. Attachments take
  precedence over text. Only audio attachments are transcribed.
- **MIME normalisation** (`utils/file_converter.py`). A file whose type the
  n8n document loader does not accept is relabelled as plain text, and
  renamed to match, when a conversion or the text-like fallback applies.
  Otherwise it is passed through unchanged. These are constant tables plus
  pure functions.
- **Long-message delivery** (`utils/discord_response_handler.py`). A reply
  goes out as one message, as several messages packed line by line under
  the length limit, or as a UTF-8 text file. The channel is a class holding
  the sequence of posted items.

Python values are modelled by `PyValue.Json`, with Python's truthiness,
`len`, `dict.get`, iteration, `==` against `True`, and `str`/`repr`. A raised
exception is an `Outcome.Raised`. Library code the renderer calls is passed
in as a `Host` value:

- `repr` of floats and the quoting of strings;
- `datetime.fromisoformat`;
- `json.dumps`.

`strftime` is modelled concretely.

Files:

- `wrappers.dfy`: `Option`.
- `strings.dfy`: the `str` methods used.
- `py_value.dfy`: JSON values with Python semantics.
- `webhook_items.dfy`: the sub-renderers and `_format_date`.
- `webhook_format.dfy`: `_format_webhook_response`.
- `message_routing.dfy`: `on_message`.
- `file_converter.dfy`: MIME normalisation.
- `utf8.dfy`: UTF-8 as in section 3 of RFC 3629.
- `response_handler.dfy`: long-message delivery.

## Model

| member | source | states |
|---|---|---|
| `WebhookFormat.ActionEmoji` | bot.py:196-206 | A known action gets its table emoji. Any other hashable value gets ✅. A list or dict action raises TypeError. |
| `WebhookFormat.Classify` | bot.py:209-245 | The branch the if/elif chain picks is one whose test holds. |
| `WebhookFormat.EarlierFails` | bot.py:209-245 | No branch tried before the chosen one has a test that holds. |
| `WebhookFormat.ClassifyFirstMatch` | bot.py:209-245 | The chosen branch is the first one, in the if/elif order, whose test holds. |
| `WebhookFormat.RenderData` | bot.py:176-179 | A value that is not a dict is shown in a code block as `str()` prints it. |
| `WebhookFormat.RenderParsed` | bot.py:167-179 | `[]` is the plain success text. A non-empty list renders as its first element, and an inner list is shown in a code block. A scalar is shown in a code block. |
| `WebhookFormat.FormatWebhookResponse` | bot.py:247-249 | A body that is not valid JSON is shown raw in a code block. |
| `WebhookFormat.EmptyListSucceeds` | bot.py:168-171 | `[]` renders as the plain success text. |
| `WebhookFormat.FirstElementStandsForList` | bot.py:168-177 | A non-empty list renders exactly as its first element, when that element is not a list. |
| `WebhookFormat.NestedListShown` | bot.py:168-179 | A list is unwrapped only once: an inner list is shown in a code block. |
| `WebhookFormat.ScalarShown` | bot.py:177-179 | A scalar reply is shown in a code block. |
| `WebhookFormat.NoOutputSucceeds` | bot.py:181-187 | A dict whose `output` is missing or falsy renders as the plain success text. |
| `WebhookFormat.OutputNotObjectFails` | bot.py:186-189 | A truthy `output` that is not a dict raises on `.get`, giving the fallback text. |
| `WebhookFormat.LengthlessFieldFails` | bot.py:193 | The debug line takes `len` of `items` and of a truthy `content`. A value without a length gives the fallback text for every action. |
| `WebhookFormat.DispatchedData` | bot.py:181-245 | A dict that passes the `output` checks, the debug line and the emoji lookup is rendered by the branch the chain picks. |
| `WebhookFormat.DispatchedRendering` | bot.py:206-252 | A dispatched dict renders as its branch's text, or as the fallback text when that branch raises. |
| `WebhookFormat.BranchStartsWithEmoji` | bot.py:209-245 | Every branch's text begins with the action's emoji. |
| `WebhookFormat.HeaderOnlyBranches` | bot.py:213-241 | The email-sent, event-created and plain-content branches print exactly `emoji **content**`. |
| `WebhookFormat.EmptyNotesAndTasks` | bot.py:305-335 | Notes and tasks with falsy items print the bare header, with no blank line after it. |
| `WebhookFormat.JsonFallbackBranch` | bot.py:243-245 | With nothing to dispatch on, the whole dict is dumped as JSON after the emoji. |
| `WebhookFormat.NonObjectItemFails` | bot.py:250-356 | An email, calendar, note or task listing holding a non-dict item raises on `.get`, giving the fallback text. |
| `WebhookItems.FormatDate` | bot.py:377-383 | A non-str value, or a str the parser rejects after 'Z' becomes '+00:00', comes back unchanged. |
| `WebhookItems.Strftime` | bot.py:381 | The printed date is eighteen characters laid out as `DD/MM/YYYY à HH:MM`. |
| `WebhookItems.StrftimeRoundTrip` | bot.py:381 | The printed `DD/MM/YYYY à HH:MM` form reads back as the date it came from. |
| `WebhookItems.FormatDateReadsBack` | bot.py:380-381 | The parser never sees a 'Z'. An accepted date is printed so that it reads back as the parsed date. |
| `WebhookItems.Truncate` | bot.py:271 | A long str is cut to its first n characters plus "...". Any other value that does not raise is kept as it is. A long list or dict, or a value without a length, raises. |
| `WebhookItems.Numbered` | bot.py:256-258 | The numbered listing extends the header it starts from. |
| `WebhookItems.NumberedOk` | bot.py:258-274 | A listing succeeds exactly when every item's block succeeds. |
| `WebhookItems.NumberedConcat` | bot.py:258-274 | A successful listing is the header followed by the blocks of items 1..n, in input order. |
| `WebhookItems.EmailBlock` | bot.py:259-274 | An email block starts with the numbered subject and ends with a newline. It succeeds exactly when the item is a dict whose preview can be cut at 100. |
| `WebhookItems.EmailListText` | bot.py:254-276 | The email listing succeeds exactly when items are iterable and every block succeeds. It starts with the header and a blank line. |
| `WebhookItems.RenderEmail` | bot.py:259-274 | The loop body for one email yields that email's block. |
| `WebhookItems.FormatEmailList` | bot.py:254-276 | The loop produces the email listing, and raises where the listing raises. |
| `WebhookItems.EventBlock` | bot.py:283-301 | An event block starts with the numbered title and ends with a newline. It succeeds exactly when the item is a dict whose description can be cut at 100. |
| `WebhookItems.CalendarEventsText` | bot.py:278-303 | The calendar listing succeeds exactly when items are iterable and every block succeeds. It starts with the header and a blank line. |
| `WebhookItems.RenderEvent` | bot.py:283-301 | The loop body for one event yields that event's block. |
| `WebhookItems.FormatCalendarEvents` | bot.py:278-303 | The loop produces the calendar listing. |
| `WebhookItems.NoteBlock` | bot.py:313-326 | A note block starts with the numbered title and ends with a newline. It succeeds exactly when the item is a dict whose body can be cut at 150. |
| `WebhookItems.NotesText` | bot.py:305-328 | Falsy items give the bare header. Otherwise the notes listing succeeds exactly when every block does, and starts with the header and a blank line. |
| `WebhookItems.RenderNote` | bot.py:313-326 | The loop body for one note yields that note's block. |
| `WebhookItems.FormatNotes` | bot.py:305-328 | The early return and the loop produce the notes listing. |
| `WebhookItems.StatusIcon` | bot.py:343 | The icon is ✅ exactly for `True`, `1`, `1.0`, "completed" and "done", and ⬜ otherwise. |
| `WebhookItems.PriorityIcon` | bot.py:346-349 | The icon is red, yellow, green or white. It is white exactly when the lower-cased `str()` of the priority is none of "high", "medium" and "low". |
| `WebhookItems.PriorityIconIgnoresCase` | bot.py:346-349 | A str priority maps to red, yellow or green for "high", "medium" or "low" in any case of letters, and to white otherwise. |
| `WebhookItems.TaskBlock` | bot.py:338-354 | A task block starts with the status icon, the number and the title, and ends with a newline. It succeeds exactly when the item is a dict. |
| `WebhookItems.TasksText` | bot.py:330-356 | Falsy items give the bare header. Otherwise the task listing succeeds exactly when every item is a dict. |
| `WebhookItems.RenderTask` | bot.py:338-354 | The loop body for one task yields that task's block. |
| `WebhookItems.FormatTasks` | bot.py:330-356 | The early return and the loop produce the task listing. |
| `WebhookItems.AppendKeyLines` | bot.py:369-371 | The per-field lines only extend the block. |
| `WebhookItems.AppendKeyLinesNone` | bot.py:369-371 | No field line is added exactly when every field is a title key or falsy. |
| `WebhookItems.GenericBlock` | bot.py:363-373 | A str prints as a numbered line, and a dict as its numbered title and field lines. Anything else prints only the blank line. Every block ends with a newline. |
| `WebhookItems.RenderGeneric` | bot.py:363-373 | The loop body for one item, with its inner loop over the dict's fields, yields that item's block. |
| `WebhookItems.GenericListText` | bot.py:358-375 | The generic listing starts with the header and a blank line. It raises only when items cannot be iterated. |
| `WebhookItems.FormatGenericList` | bot.py:358-375 | The loop produces the generic listing. |
| `PyValue.Lookup` | bot.py:181-182 | A key lookup finds the first field with that key, and fails exactly when no field has it. |
| `PyValue.Iterate` | bot.py:258 | Iteration succeeds exactly for values with a length, and yields that many elements. A list yields its elements, in order. |
| `PyValue.IterateYields` | bot.py:258 | A str yields its characters as one-character strs, and a dict its keys, in order. |
| `PyValue.Show` | bot.py:264 | An f-string prints a str as itself and `None` as "None". |
| `MessageRouting.ParseIds` | bot.py:56 | The ids parse exactly when every entry does, in entry order. Otherwise the first entry that fails is reported. |
| `MessageRouting.AudioIndices` | bot.py:88-91 | Exactly the attachments with an "audio/" content type are selected, in increasing order. |
| `MessageRouting.SelectAudio` | bot.py:88-126 | The attachment loop transcribes exactly the audio attachments. |
| `MessageRouting.RouteMessage` | bot.py:44-74 | Bots and the bot itself are ignored. Attachments go to the attachment handler. Text is handled only when there are no attachments. |
| `MessageRouting.AdmittedIffListed` | bot.py:55-63 | With an allow-list set, a user gets through exactly when every entry parses and one of them is their id. Without one, everyone gets through. |
| `MessageRouting.BadEntryReported` | bot.py:56 | A malformed allow-list entry makes every non-bot message end in the internal-error report. |
| `MessageRouting.AttachmentsBeforeText` | bot.py:65-74 | Attachments win over text. Text is handled only without attachments. Neither gives the no-content case. |
| `MessageRouting.NonAudioSkipped` | bot.py:91 | An attachment with no content type, or one outside "audio/", is never transcribed. |
| `FileConverter.FirstSuffixMatch` | utils/file_converter.py:97-99 | The search finds the first table entry whose extension ends the name. |
| `FileConverter.MimeTypeFromFilename` | utils/file_converter.py:87-100 | The type is that of the first extension, in table order, that the lower-cased name ends with. It is None when there is none. |
| `FileConverter.BaseName` | utils/file_converter.py:170 | The base is the name up to its last '.', or the whole name when there is no '.'. |
| `FileConverter.UpdateFilenameExtension` | utils/file_converter.py:158-182 | The new name is the base followed by the target type's extension, or ".txt" for an unlisted type. |
| `FileConverter.IsSupportedMimeType` | utils/file_converter.py:103-113 | A supported type is never empty and never one of the types that get converted. |
| `FileConverter.ConvertedMimeType` | utils/file_converter.py:116-155 | A supported type comes back with its name. A changed type is always plain text, with the name renamed to ".txt". |
| `FileConverter.ShouldConvertFile` | utils/file_converter.py:185-199 | A non-empty type needs conversion exactly when it is unsupported. An empty type is resolved from the name: it needs conversion exactly when the resolved type is unsupported, or when no extension is known. |
| `FileConverter.FileInfoForN8n` | utils/file_converter.py:202-223 | The originals are kept. `converted` holds exactly when the type changed. An unchanged type keeps its name. |
| `FileConverter.TablesDisjoint` | utils/file_converter.py:11-57 | No supported type has a conversion, and every conversion is to plain text. |
| `FileConverter.SupportedUnchanged` | utils/file_converter.py:127-129 | A supported type comes back unchanged, name included. |
| `FileConverter.ConvertedIsSupportedOrOriginal` | utils/file_converter.py:116-155 | The result type is supported or the original. A changed type is plain text. |
| `FileConverter.UnchangedTypeKeepsName` | utils/file_converter.py:116-155 | When the type is kept, so is the name. |
| `FileConverter.ConvertedIdempotent` | utils/file_converter.py:116-155 | Converting a converted file changes nothing. |
| `FileConverter.EmptyUnknownNeedsConversion` | utils/file_converter.py:196-199 | An empty type with no known extension is taken as binary and needs conversion. |
| `FileConverter.EmptyTypeConvertedByName` | utils/file_converter.py:116-155 | An empty type is only changed through the type the filename gives, and that type has a conversion. |
| `FileConverter.ConvertedAgreesWithFlag` | utils/file_converter.py:185-199 | Whenever the type is changed, the flag says the file needs conversion. |
| `ResponseHandler.Channel.Send` | utils/discord_response_handler.py:34 | Sending appends one item to the channel and changes nothing else. |
| `ResponseHandler.Pack` | utils/discord_response_handler.py:95-108 | Every flushed message is non-empty and fits: it is within the limit or is one line. The pending chunk fits too. |
| `ResponseHandler.SplitMessages` | utils/discord_response_handler.py:90-112 | Every message sent is non-empty and fits. What each message holds is stated by `SplitMessagesAreRuns`. |
| `ResponseHandler.PackRuns` | utils/discord_response_handler.py:95-112 | The packed messages are newline-joins of consecutive runs of the lines, as `Runs` defines. |
| `ResponseHandler.SplitMessagesAreRuns` | utils/discord_response_handler.py:90-112 | For any content, message k is the newline-join of a run of its lines. The runs come in order, do not overlap, and each starts at a non-empty line. Every line outside all runs is empty. |
| `ResponseHandler.SendSplitMessages` | utils/discord_response_handler.py:77-112 | The loop posts exactly the packed messages, in order. |
| `ResponseHandler.SendAsFile` | utils/discord_response_handler.py:53-74 | One captioned file holding the UTF-8 bytes of the content is posted. |
| `ResponseHandler.Delivery` | utils/discord_response_handler.py:33-50 | No text message is empty. For non-empty content every text message fits. A file, when one is sent, is the only item: the captioned UTF-8 bytes of the content. |
| `ResponseHandler.DefaultShortReply` | utils/discord_response_handler.py:11-42 | With the default arguments, non-empty content of at most 2000 characters is one message. |
| `ResponseHandler.DefaultSplitReply` | utils/discord_response_handler.py:11-50 | With the default arguments, content of 2001 to 4000 characters is split into messages. |
| `ResponseHandler.DefaultFileReply` | utils/discord_response_handler.py:11-47 | With the default arguments, content over 4000 characters is one file named "response.txt". |
| `ResponseHandler.SendLongResponse` | utils/discord_response_handler.py:11-50 | The posts are the three-way delivery: success text, one message, a file, or split messages. |
| `ResponseHandler.EmptyContentDelivery` | utils/discord_response_handler.py:33-35 | Empty content posts the success text only. |
| `ResponseHandler.ShortContentDelivery` | utils/discord_response_handler.py:37-42 | Content within the limit is posted as one message. |
| `ResponseHandler.LongContentDelivery` | utils/discord_response_handler.py:44-74 | Content over both limits is posted as one captioned file whose bytes decode back to the content. |
| `ResponseHandler.PackKeepsLines` | utils/discord_response_handler.py:95-108 | Without empty lines, the messages and the chunk joined by newlines are the lines seen so far. |
| `ResponseHandler.SplitRoundTrip` | utils/discord_response_handler.py:90-112 | Content without empty lines is posted whole: the messages joined by newlines give it back. |
| `ResponseHandler.PackEmptyLines` | utils/discord_response_handler.py:104-108 | Empty lines never start a chunk. |
| `ResponseHandler.OnlyNewlinesSendNothing` | utils/discord_response_handler.py:91-112 | Content made only of newlines posts nothing. |
| `ResponseHandler.SingleLineSentWhole` | utils/discord_response_handler.py:95-112 | A single line is posted as one message, however long it is. |
| `Utf8.EncodeChar` | utils/discord_response_handler.py:67 | A character takes one to four bytes, one exactly when it is ASCII. |
| `Utf8.Encode` | utils/discord_response_handler.py:67 | The encoding has between one and four bytes per character. |
| `Utf8.DecodeEncode` | utils/discord_response_handler.py:67 | Decoding the encoding gives the string back. |
| `Utf8.EncodeAscii` | utils/discord_response_handler.py:67 | ASCII text is encoded one byte per character, each byte its code. |
| `Strings.Split` | utils/discord_response_handler.py:91 | `split` gives at least one piece, and no piece holds the separator. |
| `Strings.SplitJoin` | utils/discord_response_handler.py:91 | Joining the pieces with the separator gives the string back. |
| `Strings.Lower` | utils/file_converter.py:98 | Lower-casing keeps the length and lowers each character. |
| `Strings.ReplaceChar` | bot.py:380 | After replacing 'Z' by '+00:00' no 'Z' is left. A string without 'Z' is unchanged. |
| `Strings.LastIndexOf` | utils/file_converter.py:170 | The last '.' is found, and nothing after it is a '.'. |
| `Strings.ZeroPadRoundTrip` | bot.py:381 | A zero-padded field has the padded width and reads back as its number. |

## Left out

- Discord I/O is left out: the event loop, the async sends, and the edits and deletes of the "transcription in progress" message. The channel is a class recording what is posted. `on_message` is a routing function.
- `MessageRouting.RouteMessage` does not model the text of the posted error or the logging. A malformed allow-list entry is an `InternalError` route.
- Sending to the webhook is left out (`_call_webhook`, bot.py:385-407). It covers HS256 JWT signing, the wall-clock expiry and the HTTP POST.
- Audio download and speech recognition are left out (`utils/audio_transcription.py`). Configuration from the environment (`utils/config.py`) and re-exports (`utils/__init__.py`) are not part of this model either.
- JSON decoding is not modelled. The renderer receives the parsed value, or the raw text when decoding failed.
- Three library calls are parameters of the model (`Host`, `Printer`):
  - `json.dumps(indent=2, ensure_ascii=False)`;
  - `datetime.fromisoformat`;
  - `repr` of floats and strs.
- Nested JSON values print through `repr`, with these parameters.
- `WebhookItems.FormatDate` pads the year to four digits. Python's `strftime('%Y')` for years below 1000 depends on the platform's C library.
- `Strings.Lower` lowers only ASCII letters and the Kelvin sign (U+212A, which lowers to 'k'). Every other character is kept. Both the extension table and the priority table are ASCII, and no other non-ASCII character lowers to an ASCII letter in a way that can complete a match. The one other such character is U+0130, which lowers to "i" plus a combining dot, so the dot spoils the match.
- A dict is an ordered list of fields, and a lookup takes the first field with the key. JSON text with a repeated key is not modelled: Python's decoder keeps the last value, while the model assumes the keys are distinct, as they are in any decoded dict.
- `FileConverter.FileInfoForN8n` takes no file bytes: `get_file_info_for_n8n` does not use its `file_data` argument.
- `ResponseHandler.SplitRoundTrip` is proved only for content without empty lines. An empty line that arrives while the chunk is empty is dropped, so the general statement does not hold.
- `ResponseHandler.SendSplitMessages` keeps `message_count`, which the source computes and never reads. It is not stated in the contract.
- In the listing methods, the body of each `for idx, item in enumerate(items, 1)` loop is a method of its own (`RenderEmail`, `RenderEvent`, `RenderNote`, `RenderTask`, `RenderGeneric`). Each loop appends that method's block to `formatted`. The generic listing's inner loop over the dict's fields sits in `RenderGeneric`, which builds the block in a local variable before it is appended. The text produced is the same.
- `PyValue.Json` holds floats as `real`s. It cannot hold the NaN, Infinity, -Infinity and -0.0 that Python's `json.loads` accepts, so a reply such as `{"output": {"content": NaN}}` is not modelled.
- A Dafny `string` holds Unicode scalar values only. A Python `str` can hold a lone surrogate, for example one decoded from the JSON escape `"\ud800"`, and `content.encode('utf-8')` at utils/discord_response_handler.py:67 then raises `UnicodeEncodeError`. `ResponseHandler.SendAsFile`, `ResponseHandler.LongContentDelivery` and `Utf8.Encode` assume content without lone surrogates, so that case is not modelled.
- Logging is not modelled. The one log call with an effect is bot.py:193, whose `len` calls can raise; it is modelled.
