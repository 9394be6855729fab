/** The shape of a Telethon message as the two formatters see it. The Python
    code probes attributes with `hasattr`/`getattr` and tests their truthiness;
    `Attr` keeps apart "no such attribute", "attribute set to None" and a string. */
module Telegram {
  import opened Seqs

  /** One attribute of a Python object that is either missing, None, or a string. */
  datatype Attr = Absent | NoneValue | Value(s: string)
  {
    /** Python truthiness: only a non-empty string is true. */
    predicate Truthy() {
      Value? && s != ""
    }
  }

  // The ranges Python's datetime enforces on its fields.
  type Year = y: int | 1 <= y <= 9999 witness 1
  type Month = m: int | 1 <= m <= 12 witness 1
  type Day = d: int | 1 <= d <= 31 witness 1
  type Hour = h: int | 0 <= h <= 23
  type Minute = m: int | 0 <= m <= 59

  /** A datetime, down to the minute (the only fields any format reads). */
  datatype DateTime = DateTime(year: Year, month: Month, day: Day, hour: Hour, minute: Minute)

  /** The sender entity: a User has first and last names, a Chat or Channel a title. */
  datatype Sender = Sender(firstName: Attr, lastName: Attr, title: Attr)

  /** One entry of `document.attributes`; only file-name attributes carry `fileName`. */
  datatype DocAttr = DocAttr(fileName: Attr)

  /** The MessageMedia* classes the formatters distinguish. `Document(None)` is a
      document media whose `document` is None (it has no `attributes`). `Other`
      stands for every remaining class: Game, Invoice, Dice, Unsupported, ... */
  datatype Media =
    | Photo
    | Document(attributes: Option<seq<DocAttr>>)
    | WebPage
    | Geo
    | GeoLive
    | Venue
    | Contact
    | Poll
    | Other

  /** A service action: the Python class name of `message.action` and its
      `title` attribute when it has one (ChatEditTitle does). */
  datatype Action = Action(typeName: string, title: Option<string>)

  /** A message. `text` is "" when Telethon's `message.text` is empty or None:
      the formatters only render it when it is truthy. */
  datatype Message = Message(
    date: DateTime,
    editDate: Option<DateTime>,
    sender: Option<Sender>,
    deleted: bool,
    media: Option<Media>,
    text: string,
    action: Option<Action>)
}
