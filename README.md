# ChatShift WhatsApp line formatter, in Dafny

ChatShift exports a Telegram chat as a WhatsApp-style text file. It turns each
Telegram message into one line of the form

    DD/MM/YY, HH:MM - <sender>: <content><edited suffix>

A chat export starts with a fixed end-to-end-encryption notice header. The
message lines follow in reverse fetch order, so the oldest message comes first.
The repository has two versions of this formatter, and this project models both
separately:

- `chatshift/formatter.py` (`WhatsAppFormatter`), module `Formatter`. Deleted
  messages get a notice line. Each media kind has its own placeholder
  (`<File: NAME omitted>`, `<Link omitted>`, `<Location omitted>`, ...). Edited
  messages end with `" <This message was edited>"`.
- `chatshift_cli.py` (`ChatShiftCLI`), module `Cli`. The sender falls back to a
  channel title. Every media kind gives one `"<Media omitted>"`. Edited messages
  end with `" (edited)"`. The module also models the limit normalisation and the
  message-collection loop of `export_chat`.

Both files contain identical text for `format_date`, `format_chat_header` and
the service-action phrase table. Each of these is in module `WhatsApp` once,
and both formatters use it. `WhatsApp.FormatDate` models both
chatshift/formatter.py:22-24 and chatshift_cli.py:225-227.
`WhatsApp.FormatHeader` models both chatshift/formatter.py:134-143 and
chatshift_cli.py:293-302. `WhatsApp.ActionPhrase` models both
chatshift/formatter.py:101-120 and chatshift_cli.py:262-282.

Module `Telegram` models a Telethon message as a datatype. The Python code
probes attributes with `hasattr`/`getattr` and tests their truthiness.
`Attr = Absent | NoneValue | Value(s)` keeps these cases apart:

- the attribute does not exist;
- the attribute is `None`;
- the attribute is a string.

`Truthy()` is Python's truthiness of such an attribute. A falsy
`message.text` is the empty string. The text is only ever rendered when it is
truthy.

Module `Seqs` holds the sequence helpers:

- `Reverse`, Python's `reversed`;
- `FilterMap`, the `append` loop that skips `None` and caught failures;
- `Contains`, Python's substring test `p in s`.

Module `Comparison` states where the two versions agree and where they differ.
The modules `FormatterExamples` and `CliExamples` state the expected strings of
tests/test_formatter.py and similar examples for the CLI.

Inputs the model passes in as parameters:

- The header's wall-clock time (`datetime.now()`) is the parameter `now`.
- Telethon's `iter_messages` is `Cli.IterMessages`. It returns at most `limit`
  of the newest entries of a history sequence.
- `chat_title` is never read by any of the modelled methods, so it is not a
  parameter.

Behaviour of the source worth noting:

- An empty message (no text, no media, no action) still yields a `<Message>`
  line rather than no line.
- formatter.py never falls back to the sender's title.
- The format rules are fixed strings, not configurable templates.

chatshift/formatter.py:37-39 has two behaviours that the model reproduces as
written. A sender whose `first_name` attribute is `None` is printed as `"None"`.
If that sender also has a non-empty last name, `None + " " + last` raises
`TypeError` outside the method's `try` block. `format_messages` catches that
error and drops the message (`Formatter.SenderTypeError`).

## Model

| member | source | states |
|---|---|---|
| WhatsApp.FormatDate | chatshift/formatter.py:22-24 | `strftime("%d/%m/%y, %H:%M")`: exactly 15 characters. Positions 0-1, 3-4, 6-7, 10-11 and 13-14 are two decimal digits spelling day, month, year mod 100, hour and minute. They are separated by `/`, `/`, `, ` and `:`. |
| WhatsApp.FormatDateInjective | chatshift/formatter.py:22-24 | Two datetimes with the same date string agree on day, month, two-digit year, hour and minute. |
| WhatsApp.FormatHeader | chatshift/formatter.py:134-143 | The header starts with the formatted `now` and `" - "`, followed by the fixed encryption notice. |
| WhatsApp.HeaderMentionsEncryption | tests/test_formatter.py:23-29 | The header contains "Messages and calls are end-to-end encrypted". |
| WhatsApp.ActionFirstMatch | chatshift/formatter.py:101-120 | The phrase is the one of the first key in the order ChatCreate, ChatAddUser, ChatDeleteUser, ChatJoinedByLink, ChatEditTitle, ChatEditPhoto, ChatDeletePhoto, MessagePin that occurs in the action's class name. ChatEditTitle gives "changed the group name to TITLE", or "unknown" when there is no title attribute. |
| WhatsApp.ActionPhrase | chatshift/formatter.py:101-120 | The service-action phrase is never empty. Which phrase a class name gets is stated by `WhatsApp.ActionFirstMatch` (first matching key in the fixed order) and `WhatsApp.ActionDefaultIff` (the "performed action: NAME" fallback). The code is identical at chatshift_cli.py:262-282. |
| WhatsApp.ActionDefaultIff | chatshift/formatter.py:119-120 | "performed action: NAME" is the phrase if and only if no key occurs in the class name. |
| Seqs.ContainsIff | chatshift/formatter.py:103 | The substring test `key in name` holds exactly when `key` occurs in `name` at some index. |
| Seqs.Reverse | chatshift/formatter.py:151 | `reversed(messages)` has the same length and puts element n-1-k at position k, for n elements. |
| Formatter.SenderNameOf | chatshift/formatter.py:35-41 | No sender gives "Unknown". Otherwise the first name is used, or "Unknown" when the sender has no `first_name` attribute, or "None" when it is None. " LAST" is appended only when the last name is non-empty. A None first name together with a non-empty last name raises TypeError. |
| Formatter.FirstFileName | chatshift/formatter.py:63-68 | Returns nothing exactly when no attribute has a non-empty file name. Otherwise returns the file name of the first attribute that has one. |
| Formatter.FormatMessage | chatshift/formatter.py:26-132 | Returns no line exactly for a missing message. Raises exactly when the sender name raises. Every line starts with the formatted message date and `" - "`. |
| Formatter.DeletedOverrides | chatshift/formatter.py:49-52 | A deleted message gives "DATE - SENDER: This message was deleted", whatever media, text or edit date it has, with no edited suffix. |
| Formatter.LineLayout | chatshift/formatter.py:46-47 | A message that is not deleted gives the prefix, the content and then " <This message was edited>" if an edit date is set, or nothing otherwise. |
| Formatter.MediaContent | chatshift/formatter.py:55-94 | The placeholder of a media kind is never empty. The placeholder of each kind is stated by `Formatter.MediaPlaceholders`. |
| Formatter.Content | chatshift/formatter.py:54-124 | The content of a line that is not deleted is never empty. Its priority (media, then text, then action, then `<Message>`) is stated by `Formatter.MediaPlaceholders` and `Formatter.TextThenAction`. |
| Formatter.EditedSuffix | chatshift/formatter.py:46-47 | The marker after the content. `Formatter.LineLayout` states that it is " <This message was edited>" exactly when an edit date is set, and that deleted lines do not get it (`Formatter.DeletedOverrides`). |
| Formatter.MediaPlaceholders | chatshift/formatter.py:54-94 | Media decides the content first. Photo gives `<Media omitted>`. Document gives `<File: NAME omitted>` for the first named attribute, otherwise `<Media omitted>`. WebPage gives the text if it is non-empty, otherwise `<Link omitted>`. Geo, GeoLive and Venue give `<Location omitted>`, Contact `<Contact omitted>`, Poll `<Poll omitted>`, and any other media `<Media omitted>`. |
| Formatter.TextThenAction | chatshift/formatter.py:96-124 | Without media: non-empty text verbatim, else the action phrase, else `<Message>`. |
| Formatter.FormatMessages | chatshift/formatter.py:145-160 | The output is the header followed by the lines of `reversed(messages)` that are not None and did not raise. Its length is at most 1 + the number of messages. Element 0 starts with the formatted `now`. |
| Formatter.LinesOldestFirst | chatshift/formatter.py:150-155 | When every message yields a line, there is one line per message, and line k comes from message n-1-k of the n messages. |
| Formatter.LinesMembers | chatshift/formatter.py:151-158 | A line is in the output exactly when some input message formats to it. |
| FormatterExamples.DateExample | tests/test_formatter.py:17-21 | 2023-06-01 21:10 formats as "01/06/23, 21:10". |
| FormatterExamples.HeaderExample | tests/test_formatter.py:23-29 | The header for that time contains the date and the encryption sentence. |
| FormatterExamples.TextExample | tests/test_formatter.py:31-49 | "01/06/23, 21:10 - John Doe: Hello, world!" |
| FormatterExamples.DeletedExample | tests/test_formatter.py:51-69 | "01/06/23, 21:10 - John Doe: This message was deleted" |
| FormatterExamples.EditedExample | tests/test_formatter.py:71-89 | "01/06/23, 21:10 - John Doe: Edited text <This message was edited>" |
| FormatterExamples.PhotoExample | tests/test_formatter.py:91-115 | "01/06/23, 21:10 - John Doe: <Media omitted>" |
| Cli.SenderNameOf | chatshift_cli.py:239-250 | Non-empty first name (plus " LAST" if the last name is non-empty), else non-empty title, else "Unknown". No sender also gives "Unknown". The name is never empty. |
| Cli.FormatMessage | chatshift_cli.py:229-291 | Returns None exactly for a missing message. Every line starts with the formatted date and `" - "`. |
| Cli.LineStartsWithDate | chatshift_cli.py:225-237 | Every line begins with the 15-character date, then " - ", then the sender name. |
| Cli.EditedSuffixIff | chatshift_cli.py:252-253 | The line ends in " (edited)" after the content if an edit date is set; otherwise nothing follows the content. |
| Cli.Content | chatshift_cli.py:255-285 | The content is never empty. Its priority (any media, then text, then action, then `<Message>`) is stated by `Cli.ContentPriority`. |
| Cli.EditedSuffix | chatshift_cli.py:252-253 | The marker after the content. `Cli.EditedSuffixIff` states that it is " (edited)" exactly when an edit date is set. |
| Cli.ContentPriority | chatshift_cli.py:255-285 | Any media gives `<Media omitted>` regardless of kind. Then non-empty text verbatim, then the action phrase, then `<Message>`. |
| Cli.FormatMessages | chatshift_cli.py:304-318 | The output is the header followed by the lines of `reversed(messages)` that are not None. Its length is at most 1 + the number of messages. Element 0 starts with the formatted `now`. |
| Cli.LinesOldestFirst | chatshift_cli.py:309-314 | Without None entries, there is one line per message, and line k comes from message n-1-k of the n messages. |
| Cli.NormalizeLimit | chatshift_cli.py:163-164 | A limit of 0 becomes 5000. Any other limit is used unchanged. The result is positive. |
| Cli.IterMessages | chatshift_cli.py:172 | The iterator yields a prefix of the history, of length `limit` or the whole history when it is shorter. |
| Cli.CollectMessages | chatshift_cli.py:169-180 | The counter ends equal to the number of items iterated. The kept list holds exactly the non-empty items, in input order, so it is no longer than the count. |
| Cli.NonEmptyMembers | chatshift_cli.py:173-175 | A message is kept exactly when it was fetched. |
| Cli.ExportChat | chatshift_cli.py:157-191 | The export lines are the header followed by the lines of the kept messages, oldest first: exactly 1 + (number exported). At most the normalised limit is exported, and never more than the history holds. |
| CliExamples.TextExample | chatshift_cli.py:229-291 | John Doe's "Hello" at 2023-06-01 21:10 is "01/06/23, 21:10 - John Doe: Hello". |
| CliExamples.EditedExample | chatshift_cli.py:252-253 | The same message, edited, ends in " (edited)". |
| CliExamples.ChannelExample | chatshift_cli.py:245-246 | A channel sender shows its title, and a document shows `<Media omitted>`. |
| CliExamples.CreateExample | chatshift_cli.py:265-266 | MessageActionChatCreate gives "created this group". |
| Comparison.PlainLinesAgree | chatshift_cli.py:229-291 | The two versions write the same line for a message that has none of deletion, edit date or media, and whose sender is absent or has a non-empty first name. |
| Comparison.PhotoAgrees | chatshift_cli.py:256-258 | A photo reads `<Media omitted>` in both versions. |
| Comparison.TitleOnlyInCli | chatshift_cli.py:245-246 | For a titled sender without names, formatter.py says "Unknown" and the CLI shows the title. |
| Comparison.DeletedOnlyInFormatter | chatshift/formatter.py:49-52 | For a deleted text message, formatter.py writes the deletion notice and the CLI writes the text. |

## Left out

- The broad `except Exception` handlers around content formatting
  (chatshift/formatter.py:127-129, chatshift_cli.py:286-288) and around each
  message in `format_messages` (chatshift_cli.py:315-316). Nothing in a total
  model can raise there, so `<Message format error>` never appears. The one
  exception that does occur, the TypeError on the sender name in
  formatter.py, is modelled, together with the `except` at
  chatshift/formatter.py:156-158 that skips it.
- `datetime.now()` is the parameter `now`. Seconds, time zones and per-month
  day validity of datetimes are not modelled, because the date format never
  reads them.
- `WhatsAppFormatter.user_id` and the `chat_title` parameters, because the
  modelled code never reads them.
- In `export_chat`, the model leaves out the following I/O: the progress
  `print` every 100 messages (chatshift_cli.py:178-182), writing
  `'\n'.join(lines)` to the output file (chatshift_cli.py:188-191), the "open
  the file?" prompt, and the `except` that reports network or file errors
  (chatshift_cli.py:202-204). `Cli.ExportChat` returns the lines that would be
  written.
- Cli.IterMessages: Telethon's `iter_messages` is a network call. It is modelled
  only by its contract: at most `limit` messages, newest first, as a prefix of
  the chat history.
- `authenticate`, `get_dialogs`, `display_dialogs`, `select_dialog`,
  `get_export_options`, `open_file`, `run` and `main` of chatshift_cli.py,
  because they are console, subprocess and network glue. The model takes over
  the non-negative limit that `get_export_options` guarantees, as the `nat` type
  of the limit.
- The async/await structure, because the modelled code is sequential.
- chatshift/tui.py, chatshift/exporter.py, chatshift/search.py,
  chatshift/main.py, chatshift/cli.py, chatshift/auth.py, chatshift.py and
  setup.py are not part of this model. They hold UI, network, file and
  packaging code. exporter.py's 0 → 5000 limit default duplicates
  `Cli.NormalizeLimit`.
