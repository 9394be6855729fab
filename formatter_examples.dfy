/** The expected strings of tests/test_formatter.py, stated about the model. */
module FormatterExamples {
  import opened Seqs
  import opened Telegram
  import opened WhatsApp
  import opened Formatter

  /** 2023-06-01 21:10, the date every test uses. */
  const June1 := DateTime(2023, 6, 1, 21, 10)

  /** The mocked sender: first name John, last name Doe. */
  const JohnDoe := Sender(Value("John"), Value("Doe"), Absent)

  function TestMessage(text: string, deleted: bool, edited: bool, media: Option<Media>): Message
  {
    Message(June1, if edited then Some(DateTime(2023, 6, 1, 21, 15)) else None,
            Some(JohnDoe), deleted, media, text, None)
  }

  lemma DateExample()
    ensures FormatDate(June1) == "01/06/23, 21:10"
  {
  }

  lemma HeaderExample()
    ensures FormatDate(June1) <= FormatHeader(June1)
    ensures Contains(FormatHeader(June1), "Messages and calls are end-to-end encrypted")
  {
    HeaderMentionsEncryption(June1);
  }

  /** The part before the content in every test line. */
  lemma PrefixExample(m: Message)
    requires m.date == June1 && m.sender == Some(JohnDoe)
    ensures SenderNameOf(m.sender) == Name("John Doe")
    ensures Prefix(m, "John Doe") == "01/06/23, 21:10 - John Doe: "
  {
    DateExample();
  }

  lemma TextExample()
    ensures FormatMessage(Some(TestMessage("Hello, world!", false, false, None)))
            == Line("01/06/23, 21:10 - John Doe: Hello, world!")
  {
    var m := TestMessage("Hello, world!", false, false, None);
    PrefixExample(m);
    assert "01/06/23, 21:10 - John Doe: " + "Hello, world!" == "01/06/23, 21:10 - John Doe: Hello, world!";
  }

  lemma DeletedExample()
    ensures FormatMessage(Some(TestMessage("Original text", true, false, None)))
            == Line("01/06/23, 21:10 - John Doe: This message was deleted")
  {
    var m := TestMessage("Original text", true, false, None);
    PrefixExample(m);
    assert m.deleted && m.media.None?;
    assert FormatMessage(Some(m)) == Line(Prefix(m, "John Doe") + Deleted);
    assert "01/06/23, 21:10 - John Doe: " + "This message was deleted" == "01/06/23, 21:10 - John Doe: This message was deleted";
  }

  lemma EditedLineText()
    ensures "01/06/23, 21:10 - John Doe: " + "Edited text" + " <This message was edited>"
            == "01/06/23, 21:10 - John Doe: Edited text <This message was edited>"
  {
    assert "01/06/23, 21:10 - John Doe: " + "Edited text" == "01/06/23, 21:10 - John Doe: Edited text";
  }

  lemma EditedExample()
    ensures FormatMessage(Some(TestMessage("Edited text", false, true, None)))
            == Line("01/06/23, 21:10 - John Doe: Edited text <This message was edited>")
  {
    var m := TestMessage("Edited text", false, true, None);
    var line := Prefix(m, "John Doe") + "Edited text" + EditedMark;
    assert FormatMessage(Some(m)) == Line(line) by {
      PrefixExample(m);
      assert Content(m) == "Edited text" && EditedSuffix(m) == EditedMark;
    }
    PrefixExample(m);
    EditedLineText();
  }

  lemma PhotoExample()
    ensures FormatMessage(Some(TestMessage("", false, false, Some(Photo))))
            == Line("01/06/23, 21:10 - John Doe: <Media omitted>")
  {
    var m := TestMessage("", false, false, Some(Photo));
    PrefixExample(m);
    assert "01/06/23, 21:10 - John Doe: " + "<Media omitted>" == "01/06/23, 21:10 - John Doe: <Media omitted>";
  }
}
