/** Lines of chatshift_cli.py for the messages tests/test_formatter.py builds
    for formatter.py, and for a channel sender. */
module CliExamples {
  import opened Seqs
  import opened Telegram
  import opened WhatsApp
  import opened Cli
  import FX = FormatterExamples

  const June1 := FX.June1
  const JohnDoe := FX.JohnDoe

  /** The part before the content of John Doe's lines. */
  lemma PrefixExample(m: Message)
    requires m.date == June1 && m.sender == Some(JohnDoe)
    ensures SenderNameOf(m.sender) == "John Doe"
    ensures Prefix(m) == "01/06/23, 21:10 - John Doe: "
  {
    FX.DateExample();
  }

  lemma TextExample()
    ensures FormatMessage(Some(Message(June1, None, Some(JohnDoe),
                                       false, None, "Hello", None)))
            == Some("01/06/23, 21:10 - John Doe: Hello")
  {
    var m := Message(June1, None, Some(JohnDoe), false, None, "Hello", None);
    PrefixExample(m);
    assert Content(m) == "Hello" && EditedSuffix(m) == "";
    assert FormatMessage(Some(m)) == Some(Prefix(m) + "Hello" + "");
    assert "01/06/23, 21:10 - John Doe: " + "Hello" + "" == "01/06/23, 21:10 - John Doe: Hello";
  }

  lemma EditedExample()
    ensures FormatMessage(Some(Message(June1, Some(June1), Some(JohnDoe),
                                       false, None, "Hello", None)))
            == Some("01/06/23, 21:10 - John Doe: Hello (edited)")
  {
    var m := Message(June1, Some(June1), Some(JohnDoe), false, None, "Hello", None);
    PrefixExample(m);
    assert Content(m) == "Hello" && EditedSuffix(m) == " (edited)";
    assert FormatMessage(Some(m)) == Some(Prefix(m) + "Hello" + " (edited)");
    assert "01/06/23, 21:10 - John Doe: " + "Hello" == "01/06/23, 21:10 - John Doe: Hello";
    assert "01/06/23, 21:10 - John Doe: Hello" + " (edited)" == "01/06/23, 21:10 - John Doe: Hello (edited)";
  }

  lemma ChannelExample()
    ensures FormatMessage(Some(Message(June1, None, Some(Sender(Absent, Absent, Value("News"))),
                                       false, Some(Document(None)), "", None)))
            == Some("01/06/23, 21:10 - News: <Media omitted>")
  {
    var m := Message(June1, None, Some(Sender(Absent, Absent, Value("News"))), false, Some(Document(None)), "", None);
    FX.DateExample();
    assert SenderNameOf(m.sender) == "News";
    assert Prefix(m) == "01/06/23, 21:10 - News: ";
    assert Content(m) == "<Media omitted>" && EditedSuffix(m) == "";
    assert FormatMessage(Some(m)) == Some(Prefix(m) + "<Media omitted>" + "");
    assert "01/06/23, 21:10 - News: " + "<Media omitted>" + "" == "01/06/23, 21:10 - News: <Media omitted>";
  }

  lemma CreateExample()
    ensures ActionPhrase(Action("MessageActionChatCreate", None)) == "created this group"
  {
    ContainsAt("MessageActionChatCreate", "ChatCreate", 13);
  }
}
