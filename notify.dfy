/** The chat notifications app.js sends through its webhook client: the embed
    text it fills in (title, description, fields) and the two places that
    change state, the message builder and the webhook's record of what was
    posted. Colours, timestamps, author, image and footer are not modelled. */
module Notify {
  import opened Outcomes

  datatype Field = Field(name: string, value: string)

  datatype Message = Message(title: string, description: string, fields: seq<Field>)

  const SuccessTitle := "New Fanbox Images"
  const ErrorTitle := "Download Error"
  const OverviewField := "Overview"
  const ArchiveFieldName := "Download latest file(s)"

  /** A text inside a Markdown code block, as app.js:133 and 167 write it. */
  function CodeBlock(text: string): string
  {
    "```\n" + text + "```"
  }

  /** The code block shows its text unchanged, after the four characters of
      the opening fence. */
  lemma CodeBlockShows(text: string, i: nat, j: nat)
    requires i <= j <= |text|
    ensures 4 + j <= |CodeBlock(text)| && CodeBlock(text)[4 + i..4 + j] == text[i..j]
  {
    var b := CodeBlock(text);
    forall k | 4 + i <= k < 4 + j
      ensures b[k] == text[k - 4]
    {
    }
  }

  /** The success message of app.js:129-137 before any archive link. */
  function SuccessMessage(name: string, preview: string): Message
  {
    Message(SuccessTitle, "from " + name + " downloaded successfully!", [Field(OverviewField, CodeBlock(preview))])
  }

  /** The field of app.js:154 that links the archive. */
  function ArchiveField(url: string): Field
  {
    Field(ArchiveFieldName, "[Archive (zip)](" + url + ")")
  }

  /** The error message of app.js:164-170. */
  function ErrorMessage(name: string, error: string): Message
  {
    Message(ErrorTitle, "when downloading images from " + name, [Field(OverviewField, CodeBlock(error))])
  }

  predicate IsSuccess(m: Message)
  {
    m.title == SuccessTitle
  }

  predicate IsError(m: Message)
  {
    m.title == ErrorTitle
  }

  predicate HasArchiveLink(m: Message)
  {
    exists f :: f in m.fields && f.name == ArchiveFieldName
  }

  /** A message is never both kinds; an error message never links an archive. */
  lemma MessageKinds(name: string, preview: string, error: string, url: string)
    ensures IsSuccess(SuccessMessage(name, preview)) && !IsError(SuccessMessage(name, preview))
    ensures IsError(ErrorMessage(name, error)) && !IsSuccess(ErrorMessage(name, error))
    ensures !HasArchiveLink(SuccessMessage(name, preview)) && !HasArchiveLink(ErrorMessage(name, error))
    ensures var m := SuccessMessage(name, preview); HasArchiveLink(m.(fields := m.fields + [ArchiveField(url)]))
  {
    var m := SuccessMessage(name, preview);
    assert ArchiveField(url) in m.fields + [ArchiveField(url)];
    assert OverviewField != ArchiveFieldName;
  }

  /** `new MessageBuilder()` and its chained setters (discord-webhook-node). */
  class MessageBuilder {
    var title: string
    var description: string
    var fields: seq<Field>

    constructor ()
      ensures title == "" && description == "" && fields == []
    {
      title, description, fields := "", "", [];
    }

    method SetTitle(t: string)
      modifies this
      ensures title == t && description == old(description) && fields == old(fields)
    {
      title := t;
    }

    method SetDescription(d: string)
      modifies this
      ensures description == d && title == old(title) && fields == old(fields)
    {
      description := d;
    }

    method AddField(name: string, value: string)
      modifies this
      ensures fields == old(fields) + [Field(name, value)]
      ensures title == old(title) && description == old(description)
    {
      fields := fields + [Field(name, value)];
    }

    /** The payload the builder holds. */
    function Contents(): Message
      reads this
    {
      Message(title, description, fields)
    }
  }

  /** The webhook client: every `send` posts the message, whether or not the
      endpoint then accepts it. Whether it does is an input. */
  class Webhook {
    var posts: seq<Message>

    constructor ()
      ensures posts == []
    {
      posts := [];
    }

    method Send(m: Message, delivery: Status) returns (r: Status)
      modifies this
      ensures posts == old(posts) + [m]
      ensures r == delivery
    {
      posts := posts + [m];
      r := delivery;
    }
  }
}
