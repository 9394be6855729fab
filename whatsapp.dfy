/** The WhatsApp export conventions that chatshift/formatter.py and
    chatshift_cli.py write out identically: the date layout, the encryption
    notice header and the phrases for service actions. */
module WhatsApp {
  import opened Seqs
  import opened Telegram

  /** `s` is two decimal digits spelling `n`. */
  predicate TwoDigits(s: string, n: int)
  {
    |s| == 2 && '0' <= s[0] <= '9' && '0' <= s[1] <= '9' &&
    10 * (s[0] as int - '0' as int) + (s[1] as int - '0' as int) == n
  }

  function Digit(n: nat): (c: char)
    requires n < 10
    ensures '0' <= c <= '9' && c as int - '0' as int == n
  {
    (n + '0' as int) as char
  }

  /** strftime's zero-padded two-digit fields (%d, %m, %y, %H, %M). */
  function Pad2(n: nat): (s: string)
    requires n < 100
    ensures TwoDigits(s, n)
  {
    [Digit(n / 10), Digit(n % 10)]
  }

  /** `date.strftime("%d/%m/%y, %H:%M")`. */
  function FormatDate(d: DateTime): (r: string)
    ensures |r| == 15
    ensures TwoDigits(r[0..2], d.day) && r[2] == '/'
    ensures TwoDigits(r[3..5], d.month) && r[5] == '/'
    ensures TwoDigits(r[6..8], d.year % 100) && r[8..10] == ", "
    ensures TwoDigits(r[10..12], d.hour) && r[12] == ':'
    ensures TwoDigits(r[13..15], d.minute)
  {
    var r := Pad2(d.day) + "/" + Pad2(d.month) + "/" + Pad2(d.year % 100) + ", "
             + Pad2(d.hour) + ":" + Pad2(d.minute);
    assert r[0..2] == Pad2(d.day) && r[3..5] == Pad2(d.month) && r[6..8] == Pad2(d.year % 100);
    assert r[10..12] == Pad2(d.hour) && r[13..15] == Pad2(d.minute);
    r
  }

  /** The date string determines day, month, two-digit year, hour and minute. */
  lemma FormatDateInjective(a: DateTime, b: DateTime)
    requires FormatDate(a) == FormatDate(b)
    ensures a.day == b.day && a.month == b.month && a.year % 100 == b.year % 100
    ensures a.hour == b.hour && a.minute == b.minute
  {
    var s := FormatDate(a);
    assert TwoDigits(s[0..2], a.day) && TwoDigits(s[0..2], b.day);
    assert TwoDigits(s[3..5], a.month) && TwoDigits(s[3..5], b.month);
    assert TwoDigits(s[6..8], a.year % 100) && TwoDigits(s[6..8], b.year % 100);
    assert TwoDigits(s[10..12], a.hour) && TwoDigits(s[10..12], b.hour);
    assert TwoDigits(s[13..15], a.minute) && TwoDigits(s[13..15], b.minute);
  }

  const EncryptionNotice: string :=
    "Messages and calls are end-to-end encrypted. "
    + "No one outside of this chat, not even WhatsApp, can read or listen to them. "
    + "Tap to learn more."

  /** `format_chat_header`, with the wall-clock time passed in as `now`. */
  function FormatHeader(now: DateTime): (r: string)
    ensures FormatDate(now) + " - " <= r
    ensures r[18..] == EncryptionNotice
  {
    FormatDate(now) + " - " + EncryptionNotice
  }

  /** The header mentions the end-to-end encryption sentence. */
  lemma HeaderMentionsEncryption(now: DateTime)
    ensures Contains(FormatHeader(now), "Messages and calls are end-to-end encrypted")
  {
    var h := FormatHeader(now);
    var p := "Messages and calls are end-to-end encrypted";
    assert h[18..18 + |p|] == EncryptionNotice[..|p|];
    ContainsAt(h, p, 18);
  }

  /** `getattr(message.action, 'title', 'unknown')`. */
  function TitleOr(a: Action): string
  {
    match a.title
    case Some(t) => t
    case None => "unknown"
  }

  /** The class-name tests of the service-action branch, in order. The phrase
      is never empty. */
  function ActionPhrase(a: Action): (r: string)
    ensures r != ""
  {
    var name := a.typeName;
    if Contains(name, "ChatCreate") then "created this group"
    else if Contains(name, "ChatAddUser") then "added a participant to the group"
    else if Contains(name, "ChatDeleteUser") then "removed a participant from the group"
    else if Contains(name, "ChatJoinedByLink") then "joined the group by link"
    else if Contains(name, "ChatEditTitle") then "changed the group name to " + TitleOr(a)
    else if Contains(name, "ChatEditPhoto") then "changed the group photo"
    else if Contains(name, "ChatDeletePhoto") then "removed the group photo"
    else if Contains(name, "MessagePin") then "pinned a message"
    else "performed action: " + name
  }

  /** The substrings the action branch looks for, in the order it tries them. */
  const ActionKeys: seq<string> := [
    "ChatCreate", "ChatAddUser", "ChatDeleteUser", "ChatJoinedByLink",
    "ChatEditTitle", "ChatEditPhoto", "ChatDeletePhoto", "MessagePin"]

  /** The phrase that belongs to the `k`-th key, as a table. */
  function KeyPhrase(k: nat, a: Action): string
    requires k < |ActionKeys|
  {
    if k == 4 then "changed the group name to " + TitleOr(a)
    else [ "created this group", "added a participant to the group",
           "removed a participant from the group", "joined the group by link", "",
           "changed the group photo", "removed the group photo", "pinned a message"][k]
  }

  /** The first key that occurs in the class name decides the phrase. */
  lemma ActionFirstMatch(a: Action, k: nat)
    requires k < |ActionKeys| && Contains(a.typeName, ActionKeys[k])
    requires forall j :: 0 <= j < k ==> !Contains(a.typeName, ActionKeys[j])
    ensures ActionPhrase(a) == KeyPhrase(k, a)
  {
    if k > 0 { assert !Contains(a.typeName, ActionKeys[0]); }
    if k > 1 { assert !Contains(a.typeName, ActionKeys[1]); }
    if k > 2 { assert !Contains(a.typeName, ActionKeys[2]); }
    if k > 3 { assert !Contains(a.typeName, ActionKeys[3]); }
    if k > 4 { assert !Contains(a.typeName, ActionKeys[4]); }
    if k > 5 { assert !Contains(a.typeName, ActionKeys[5]); }
    if k > 6 { assert !Contains(a.typeName, ActionKeys[6]); }
  }

  /** The generic "performed action: NAME" phrase appears exactly when no key matches. */
  lemma ActionDefaultIff(a: Action)
    ensures (forall j :: 0 <= j < |ActionKeys| ==> !Contains(a.typeName, ActionKeys[j]))
            <==> ActionPhrase(a) == "performed action: " + a.typeName
  {
    var d := "performed action: " + a.typeName;
    assert d[0] == 'p' && d[1] == 'e';
    if exists j :: 0 <= j < |ActionKeys| && Contains(a.typeName, ActionKeys[j]) {
      var r := ActionPhrase(a);
      assert r != "performed action: " + a.typeName by {
        if r == "pinned a message" {
          assert r[1] == 'i';
        } else if r == "changed the group name to " + TitleOr(a) {
          assert r[0] == 'c';
        } else {
          assert r[0] != 'p';
        }
      }
    } else {
      assert forall j :: 0 <= j < |ActionKeys| ==> !Contains(a.typeName, ActionKeys[j]);
      assert !Contains(a.typeName, ActionKeys[0]) && !Contains(a.typeName, ActionKeys[1]);
      assert !Contains(a.typeName, ActionKeys[2]) && !Contains(a.typeName, ActionKeys[3]);
      assert !Contains(a.typeName, ActionKeys[4]) && !Contains(a.typeName, ActionKeys[5]);
      assert !Contains(a.typeName, ActionKeys[6]) && !Contains(a.typeName, ActionKeys[7]);
    }
  }
}
