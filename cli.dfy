/** `ChatShiftCLI` of chatshift_cli.py: the same WhatsApp line layout with a
    title fallback for the sender, one "<Media omitted>" for every media kind and
    " (edited)"; plus the export loop that collects the fetched messages. */
module Cli {
  import opened Seqs
  import opened Telegram
  import opened WhatsApp

  const EditedMark: string := " (edited)"
  const MediaOmitted: string := "<Media omitted>"
  const DefaultLimit: nat := 5000

  /** Non-empty first name (plus non-empty last name), else non-empty title,
      else "Unknown"; "Unknown" too when there is no sender. */
  function SenderNameOf(sender: Option<Sender>): (r: string)
    ensures r != ""
    ensures sender.Some? && sender.value.firstName.Truthy() ==>
              r == sender.value.firstName.s
                   + (if sender.value.lastName.Truthy() then " " + sender.value.lastName.s else "")
    ensures sender.Some? && !sender.value.firstName.Truthy() && sender.value.title.Truthy() ==>
              r == sender.value.title.s
    ensures (sender.None? || (!sender.value.firstName.Truthy() && !sender.value.title.Truthy())) ==>
              r == "Unknown"
  {
    match sender
    case None => "Unknown"
    case Some(s) =>
      if s.firstName.Truthy() then
        s.firstName.s + (if s.lastName.Truthy() then " " + s.lastName.s else "")
      else if s.title.Truthy() then s.title.s
      else "Unknown"
  }

  /** Any media, then truthy text, then the action phrase, then "<Message>".
      A line never ends right after the sender's ": ". */
  function Content(m: Message): (r: string)
    ensures r != ""
  {
    if m.media.Some? then MediaOmitted
    else if m.text != "" then m.text
    else if m.action.Some? then ActionPhrase(m.action.value)
    else "<Message>"
  }

  /** The marker after the content of an edited message. */
  function EditedSuffix(m: Message): string
  {
    if m.editDate.Some? then EditedMark else ""
  }

  /** "DD/MM/YY, HH:MM - NAME: ", the part of a line before the content. */
  function Prefix(m: Message): string
  {
    FormatDate(m.date) + " - " + SenderNameOf(m.sender) + ": "
  }

  /** `format_message`: None only for a missing message. */
  function FormatMessage(message: Option<Message>): (r: Option<string>)
    ensures r.None? <==> message.None?
    ensures r.Some? ==> FormatDate(message.value.date) + " - " <= r.value
  {
    match message
    case None => None
    case Some(m) => Some(Prefix(m) + Content(m) + EditedSuffix(m))
  }

  /** Every line starts with the message date in the "DD/MM/YY, HH:MM" layout,
      then " - ", the sender and ": ". */
  lemma LineStartsWithDate(m: Message)
    ensures FormatMessage(Some(m)).Some?
    ensures var line := FormatMessage(Some(m)).value;
            |line| >= 20 && FormatDate(m.date) == line[..15] && line[15..18] == " - "
            && line[18..18 + |SenderNameOf(m.sender)|] == SenderNameOf(m.sender)
  {
    var line := FormatMessage(Some(m)).value;
    var name := SenderNameOf(m.sender);
    assert line == FormatDate(m.date) + " - " + name + ": " + Content(m) + EditedSuffix(m);
    assert line[..15] == FormatDate(m.date);
    assert line[15..18] == " - ";
    assert line[18..18 + |name|] == name;
  }

  /** The suffix is " (edited)" exactly when an edit date is set. */
  lemma EditedSuffixIff(m: Message)
    ensures m.editDate.Some? ==> FormatMessage(Some(m)) == Some(Prefix(m) + Content(m) + " (edited)")
    ensures m.editDate.None? ==> FormatMessage(Some(m)) == Some(Prefix(m) + Content(m))
  {
    assert Prefix(m) + Content(m) + "" == Prefix(m) + Content(m);
  }

  /** Content priority: media (of any kind) over text over action. */
  lemma ContentPriority(m: Message)
    ensures m.media.Some? ==> Content(m) == "<Media omitted>"
    ensures m.media.None? && m.text != "" ==> Content(m) == m.text
    ensures m.media.None? && m.text == "" && m.action.Some? ==> Content(m) == ActionPhrase(m.action.value)
    ensures m.media.None? && m.text == "" && m.action.None? ==> Content(m) == "<Message>"
  {
  }

  /** The lines, in the order `messages` lists them, of the messages that are not None. */
  function Lines(messages: seq<Option<Message>>): seq<string>
  {
    FilterMap(FormatMessage, messages)
  }

  /** `format_messages`: the header, then the lines of `reversed(messages)`. */
  method FormatMessages(messages: seq<Option<Message>>, now: DateTime) returns (out: seq<string>)
    ensures out == [FormatHeader(now)] + Lines(Reverse(messages))
    ensures |out| <= 1 + |messages|
    ensures FormatDate(now) + " - " <= out[0]
  {
    var header := FormatHeader(now);
    out := [header];
    var i := |messages|;
    while i > 0
      invariant 0 <= i <= |messages|
      invariant out == [header] + Lines(Reverse(messages[i..]))
    {
      i := i - 1;
      ghost var done := Lines(Reverse(messages[i + 1..]));
      var formatted := FormatMessage(messages[i]);
      ReverseStep(messages, i);
      FilterMapSnoc(FormatMessage, Reverse(messages[i + 1..]), messages[i]);
      assert Lines(Reverse(messages[i..])) == done + (if formatted.Some? then [formatted.value] else []);
      if formatted.Some? {
        out := out + [formatted.value];
      }
    }
    assert messages[0..] == messages;
  }

  /** Without None entries, every message yields a line, oldest (last) first. */
  lemma LinesOldestFirst(messages: seq<Option<Message>>)
    requires forall j :: 0 <= j < |messages| ==> messages[j].Some?
    ensures |Lines(Reverse(messages))| == |messages|
    ensures forall k :: 0 <= k < |messages| ==>
              Lines(Reverse(messages))[k] == FormatMessage(messages[|messages| - 1 - k]).value
  {
    var rev := Reverse(messages);
    assert forall j :: 0 <= j < |rev| ==> FormatMessage(rev[j]).Some? by {
      forall j | 0 <= j < |rev| ensures FormatMessage(rev[j]).Some? {
        assert rev[j] == messages[|messages| - 1 - j];
      }
    }
    FilterMapKeepsAll(FormatMessage, rev);
  }

  /** `actual_limit = 5000 if limit == 0 else limit`. */
  function NormalizeLimit(limit: nat): (r: nat)
    ensures r > 0
    ensures limit == 0 ==> r == DefaultLimit
    ensures limit != 0 ==> r == limit
  {
    if limit == 0 then DefaultLimit else limit
  }

  /** The messages `iter_messages(entity, limit=limit)` yields from a chat whose
      history, newest first, is `history`: at most `limit` of the newest. */
  function IterMessages(history: seq<Option<Message>>, limit: nat): (r: seq<Option<Message>>)
    ensures |r| <= limit && r <= history
    ensures |r| == limit || r == history
  {
    if |history| <= limit then history else history[..limit]
  }

  /** The messages of `fetched` that are not None, in order. */
  function NonEmpty(fetched: seq<Option<Message>>): seq<Message>
  {
    FilterMap((o: Option<Message>) => o, fetched)
  }

  /** The fetch loop of `export_chat`: keep every non-empty message and count
      every message iterated. */
  method CollectMessages(fetched: seq<Option<Message>>) returns (messages: seq<Message>, count: nat)
    ensures count == |fetched|
    ensures messages == NonEmpty(fetched)
    ensures |messages| <= count
  {
    messages := [];
    count := 0;
    while count < |fetched|
      invariant 0 <= count <= |fetched|
      invariant messages == NonEmpty(fetched[..count])
    {
      var message := fetched[count];
      if message.Some? {
        messages := messages + [message.value];
      }
      FilterMapSnoc((o: Option<Message>) => o, fetched[..count], message);
      assert fetched[..count + 1] == fetched[..count] + [message];
      count := count + 1;
    }
    assert fetched[..count] == fetched;
  }

  /** A message is kept exactly when it was fetched. */
  lemma NonEmptyMembers(fetched: seq<Option<Message>>, m: Message)
    ensures m in NonEmpty(fetched) <==> Some(m) in fetched
  {
    FilterMapMembers((o: Option<Message>) => o, fetched, m);
    if Some(m) in fetched {
      var j :| 0 <= j < |fetched| && fetched[j] == Some(m);
    }
  }

  /** The kept messages as the `seq<Option<Message>>` that `FormatMessages`
      takes; no source line, only a change of type. */
  function Wrap(messages: seq<Message>): (r: seq<Option<Message>>)
    ensures |r| == |messages|
    ensures forall k :: 0 <= k < |r| ==> r[k] == Some(messages[k])
  {
    seq(|messages|, k requires 0 <= k < |messages| => Some(messages[k]))
  }

  /** `export_chat` up to the file write: normalise the limit, fetch and collect,
      then format. The result has the header and one line per kept message. */
  method ExportChat(history: seq<Option<Message>>, limit: nat, now: DateTime)
    returns (out: seq<string>, exported: nat)
    ensures var kept := NonEmpty(IterMessages(history, NormalizeLimit(limit)));
            exported == |kept| && out == [FormatHeader(now)] + Lines(Reverse(Wrap(kept)))
    ensures exported <= NormalizeLimit(limit) && exported <= |history|
    ensures |out| == 1 + exported
  {
    var actualLimit := NormalizeLimit(limit);
    var fetched := IterMessages(history, actualLimit);
    var messages, count := CollectMessages(fetched);
    out := FormatMessages(Wrap(messages), now);
    exported := |messages|;
    LinesOldestFirst(Wrap(messages));
  }
}
