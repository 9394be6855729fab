/** How the line formats of chatshift/formatter.py and chatshift_cli.py relate:
    where they agree, and the inputs on which they part ways. */
module Comparison {
  import opened Seqs
  import opened Telegram
  import opened WhatsApp
  import F = Formatter
  import C = Cli

  /** A message the two versions treat alike: not deleted, never edited,
      no media, sent by nobody or by a user with a non-empty first name. */
  predicate Plain(m: Message)
  {
    !m.deleted && m.editDate.None? && m.media.None? &&
    (m.sender.None? || m.sender.value.firstName.Truthy())
  }

  /** On plain messages both versions write the same line. */
  lemma PlainLinesAgree(m: Message)
    requires Plain(m)
    ensures F.FormatMessage(Some(m)) == F.Line(C.FormatMessage(Some(m)).value)
  {
    var name := C.SenderNameOf(m.sender);
    assert F.SenderNameOf(m.sender) == F.Name(name);
    assert F.Content(m) == C.Content(m);
    assert F.Prefix(m, name) == C.Prefix(m);
  }

  /** A photo reads "<Media omitted>" in both versions. */
  lemma PhotoAgrees(m: Message)
    requires m.media == Some(Photo) && !m.deleted
    ensures F.Content(m) == C.Content(m) == "<Media omitted>"
  {
  }

  /** The versions differ on a channel sender with a title: only the CLI shows it. */
  lemma TitleOnlyInCli(m: Message, title: string)
    requires m.sender == Some(Sender(Absent, Absent, Value(title))) && title != ""
    ensures F.SenderNameOf(m.sender) == F.Name("Unknown")
    ensures C.SenderNameOf(m.sender) == title
  {
  }

  /** The versions differ on a deleted message: only formatter.py marks it. */
  lemma DeletedOnlyInFormatter(m: Message)
    requires m.deleted && !m.media.Some? && m.text != "" && m.sender.None?
    ensures F.FormatMessage(Some(m)) == F.Line(C.Prefix(m) + "This message was deleted")
    ensures C.FormatMessage(Some(m)) == Some(C.Prefix(m) + m.text + C.EditedSuffix(m))
  {
    assert F.Prefix(m, "Unknown") == C.Prefix(m);
  }
}
