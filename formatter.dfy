/** `WhatsAppFormatter` of chatshift/formatter.py: one Telegram message becomes
    one "DD/MM/YY, HH:MM - sender: content[suffix]" line, with a placeholder per
    media kind, a deleted-message line and " <This message was edited>". */
module Formatter {
  import opened Seqs
  import opened Telegram
  import opened WhatsApp

  const Deleted: string := "This message was deleted"
  const EditedMark: string := " <This message was edited>"
  const MediaOmitted: string := "<Media omitted>"

  /** What `format_message` does with one input. `SenderTypeError` is the
      TypeError raised, outside the method's own try block, when a `None`
      first name is concatenated with a last name. */
  datatype Formatted = NoMessage | Line(text: string) | SenderTypeError

  /** The sender part, or the TypeError it raises. */
  datatype SenderName = Name(name: string) | TypeError

  /** `getattr(sender, 'first_name', 'Unknown')`, then `+= " " + last_name` when
      the last name is truthy. A None first name prints as "None" in the
      f-string, and cannot be concatenated with a last name. */
  function SenderNameOf(sender: Option<Sender>): (r: SenderName)
    ensures sender.None? ==> r == Name("Unknown")
    ensures r.TypeError? <==> sender.Some? && sender.value.firstName.NoneValue? && sender.value.lastName.Truthy()
    ensures sender.Some? && sender.value.firstName.Value? ==>
              r == Name(sender.value.firstName.s
                        + (if sender.value.lastName.Truthy() then " " + sender.value.lastName.s else ""))
    ensures sender.Some? && sender.value.firstName.NoneValue? && !sender.value.lastName.Truthy() ==>
              r == Name("None")
    ensures sender.Some? && sender.value.firstName.Absent? ==>
              r == Name("Unknown" + (if sender.value.lastName.Truthy() then " " + sender.value.lastName.s else ""))
  {
    match sender
    case None => Name("Unknown")
    case Some(s) =>
      var first: Option<string> :=
        match s.firstName
        case Absent => Some("Unknown")
        case NoneValue => None
        case Value(v) => Some(v);
      if s.lastName.Truthy() then
        if first.None? then TypeError else Name(first.value + " " + s.lastName.s)
      else
        Name(if first.None? then "None" else first.value)
  }

  /** The first attribute with a truthy `file_name` (the `for ... break` scan). */
  function FirstFileName(attrs: seq<DocAttr>): (r: Option<string>)
    ensures r.None? <==> forall j :: 0 <= j < |attrs| ==> !attrs[j].fileName.Truthy()
    ensures r.Some? ==> exists k :: 0 <= k < |attrs| && attrs[k].fileName == Value(r.value) && r.value != ""
                          && forall j :: 0 <= j < k ==> !attrs[j].fileName.Truthy()
  {
    if attrs == [] then None
    else if attrs[0].fileName.Truthy() then Some(attrs[0].fileName.s)
    else
      var r := FirstFileName(attrs[1..]);
      assert r.Some? ==> exists k :: 1 <= k < |attrs| && attrs[k].fileName == Value(r.value) && r.value != ""
                           && forall j :: 0 <= j < k ==> !attrs[j].fileName.Truthy() by {
        if r.Some? {
          var k :| 0 <= k < |attrs[1..]| && attrs[1..][k].fileName == Value(r.value) && r.value != ""
                   && forall j :: 0 <= j < k ==> !attrs[1..][j].fileName.Truthy();
          assert forall j :: 0 <= j < k + 1 ==> !attrs[j].fileName.Truthy() by {
            forall j | 0 <= j < k + 1 ensures !attrs[j].fileName.Truthy() {
              if j > 0 { assert attrs[j] == attrs[1..][j - 1]; }
            }
          }
          assert attrs[k + 1] == attrs[1..][k];
        }
      }
      assert r.None? ==> forall j :: 0 <= j < |attrs| ==> !attrs[j].fileName.Truthy() by {
        if r.None? {
          forall j | 0 <= j < |attrs| ensures !attrs[j].fileName.Truthy() {
            if j > 0 { assert attrs[j] == attrs[1..][j - 1]; }
          }
        }
      }
      r
  }

  /** The placeholder for one media kind; a link preview shows the text when it
      has one. It is never empty. */
  function MediaContent(media: Media, text: string): (r: string)
    ensures r != ""
  {
    match media
    case Photo => MediaOmitted
    case Document(attributes) =>
      (match attributes
       case None => MediaOmitted
       case Some(attrs) =>
         match FirstFileName(attrs)
         case Some(name) => "<File: " + name + " omitted>"
         case None => MediaOmitted)
    case WebPage => if text != "" then text else "<Link omitted>"
    case Geo => "<Location omitted>"
    case GeoLive => "<Location omitted>"
    case Venue => "<Location omitted>"
    case Contact => "<Contact omitted>"
    case Poll => "<Poll omitted>"
    case Other => MediaOmitted
  }

  /** The content of a message that is not deleted: media, then text, then
      action. A line never ends right after the sender's ": ". */
  function Content(m: Message): (r: string)
    ensures r != ""
  {
    if m.media.Some? then MediaContent(m.media.value, m.text)
    else if m.text != "" then m.text
    else if m.action.Some? then ActionPhrase(m.action.value)
    else "<Message>"
  }

  /** The marker after the content of an edited message. */
  function EditedSuffix(m: Message): string
  {
    if m.editDate.Some? then EditedMark else ""
  }

  /** `format_message`. */
  function FormatMessage(message: Option<Message>): (r: Formatted)
    ensures r.NoMessage? <==> message.None?
    ensures r.SenderTypeError? <==> message.Some? && SenderNameOf(message.value.sender).TypeError?
    ensures r.Line? ==> FormatDate(message.value.date) + " - " <= r.text
  {
    match message
    case None => NoMessage
    case Some(m) =>
      match SenderNameOf(m.sender)
      case TypeError => SenderTypeError
      case Name(name) =>
        if m.deleted then Line(Prefix(m, name) + Deleted)
        else Line(Prefix(m, name) + Content(m) + EditedSuffix(m))
  }

  /** "DD/MM/YY, HH:MM - NAME: ", the part of a line before the content. */
  function Prefix(m: Message, name: string): string
  {
    FormatDate(m.date) + " - " + name + ": "
  }

  /** `s.endswith(suffix)`. */
  predicate EndsWith(s: string, suffix: string)
  {
    |suffix| <= |s| && s[|s| - |suffix|..] == suffix
  }

  /** A deleted message shows the deletion notice, whatever media, text or
      edit date it has, and no edited suffix. */
  lemma DeletedOverrides(m: Message, name: string)
    requires m.deleted && SenderNameOf(m.sender) == Name(name)
    ensures FormatMessage(Some(m)) == Line(Prefix(m, name) + "This message was deleted")
    ensures !EndsWith(FormatMessage(Some(m)).text, EditedMark)
  {
    var t := FormatMessage(Some(m)).text;
    assert t[|t| - 1] == 'd';
  }

  /** Every other line is prefix, content and the edited suffix; the suffix is
      " <This message was edited>" exactly when an edit date is set. */
  lemma LineLayout(m: Message, name: string)
    requires !m.deleted && SenderNameOf(m.sender) == Name(name)
    ensures m.editDate.Some? ==> FormatMessage(Some(m)) == Line(Prefix(m, name) + Content(m) + " <This message was edited>")
    ensures m.editDate.None? ==> FormatMessage(Some(m)) == Line(Prefix(m, name) + Content(m))
  {
  }

  /** Media comes first, and each kind has its placeholder. */
  lemma MediaPlaceholders(m: Message)
    requires m.media.Some?
    ensures m.media.value.Photo? ==> Content(m) == "<Media omitted>"
    ensures m.media.value.Document? && m.media.value.attributes.Some? && FirstFileName(m.media.value.attributes.value).Some?
            ==> Content(m) == "<File: " + FirstFileName(m.media.value.attributes.value).value + " omitted>"
    ensures m.media.value.Document? && (m.media.value.attributes.None? || FirstFileName(m.media.value.attributes.value).None?)
            ==> Content(m) == "<Media omitted>"
    ensures m.media.value.WebPage? ==> Content(m) == (if m.text != "" then m.text else "<Link omitted>")
    ensures m.media.value in {Geo, GeoLive, Venue} ==> Content(m) == "<Location omitted>"
    ensures m.media.value.Contact? ==> Content(m) == "<Contact omitted>"
    ensures m.media.value.Poll? ==> Content(m) == "<Poll omitted>"
    ensures m.media.value.Other? ==> Content(m) == "<Media omitted>"
  {
  }

  /** Without media: truthy text verbatim, else the action phrase, else "<Message>". */
  lemma TextThenAction(m: Message)
    requires m.media.None?
    ensures m.text != "" ==> Content(m) == m.text
    ensures m.text == "" && m.action.Some? ==> Content(m) == ActionPhrase(m.action.value)
    ensures m.text == "" && m.action.None? ==> Content(m) == "<Message>"
  {
  }

  /** `FormatMessage` as a function from a message to the line it emits, if any. */
  function LineOf(message: Option<Message>): Option<string>
  {
    match FormatMessage(message)
    case Line(t) => Some(t)
    case _ => None
  }

  /** `LineOf` keeps exactly the `Line` results. */
  lemma LineOfIsLine(message: Option<Message>, line: string)
    ensures LineOf(message) == Some(line) <==> FormatMessage(message) == Line(line)
  {
  }

  /** The lines, in the order `messages` lists them, that are not None and did not raise. */
  function Lines(messages: seq<Option<Message>>): seq<string>
  {
    FilterMap(LineOf, messages)
  }

  /** `format_messages`: the header, then the lines of `reversed(messages)`. */
  method FormatMessages(messages: seq<Option<Message>>, now: DateTime) returns (out: seq<string>)
    ensures out == [FormatHeader(now)] + Lines(Reverse(messages))
    ensures |out| <= 1 + |messages|
    ensures FormatDate(now) + " - " <= out[0]
  {
    var header := FormatHeader(now);
    out := [header];
    var i := |messages|;
    while i > 0
      invariant 0 <= i <= |messages|
      invariant out == [header] + Lines(Reverse(messages[i..]))
    {
      i := i - 1;
      ghost var done := Lines(Reverse(messages[i + 1..]));
      var formatted := FormatMessage(messages[i]);
      ReverseStep(messages, i);
      FilterMapSnoc(LineOf, Reverse(messages[i + 1..]), messages[i]);
      assert Lines(Reverse(messages[i..])) == done + (if formatted.Line? then [formatted.text] else []);
      if formatted.Line? {
        out := out + [formatted.text];
      }
    }
    assert messages[0..] == messages;
  }

  /** When every message yields a line, the output holds one line per message,
      the last input message (the oldest) first. */
  lemma LinesOldestFirst(messages: seq<Option<Message>>)
    requires forall j :: 0 <= j < |messages| ==> FormatMessage(messages[j]).Line?
    ensures |Lines(Reverse(messages))| == |messages|
    ensures forall k :: 0 <= k < |messages| ==>
              Lines(Reverse(messages))[k] == FormatMessage(messages[|messages| - 1 - k]).text
  {
    var rev := Reverse(messages);
    assert forall j :: 0 <= j < |rev| ==> LineOf(rev[j]).Some? by {
      forall j | 0 <= j < |rev| ensures LineOf(rev[j]).Some? {
        assert rev[j] == messages[|messages| - 1 - j];
      }
    }
    FilterMapKeepsAll(LineOf, rev);
  }

  /** A line is in the output exactly when some input message formats to it. */
  lemma LinesMembers(messages: seq<Option<Message>>, line: string)
    ensures line in Lines(Reverse(messages)) <==>
              exists j :: 0 <= j < |messages| && FormatMessage(messages[j]) == Line(line)
  {
    var rev := Reverse(messages);
    FilterMapMembers(LineOf, rev, line);
    if exists j :: 0 <= j < |rev| && LineOf(rev[j]) == Some(line) {
      var j :| 0 <= j < |rev| && LineOf(rev[j]) == Some(line);
      var i := |messages| - 1 - j;
      assert rev[j] == messages[i];
      LineOfIsLine(messages[i], line);
    }
    if exists j :: 0 <= j < |messages| && FormatMessage(messages[j]) == Line(line) {
      var j :| 0 <= j < |messages| && FormatMessage(messages[j]) == Line(line);
      LineOfIsLine(messages[j], line);
      assert rev[|messages| - 1 - j] == messages[j];
    }
  }
}
