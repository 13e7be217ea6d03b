/**
 * services/telegram-service.ts: the diary notification sent to a chat. The
 * bot library and its network call are a collaborator `deliver`, which says
 * whether `bot.sendMessage` completed (true) or threw (false). Whether the
 * code runs on the server and whether the bot library loaded are inputs.
 */
module Telegram {
  import opened Common

  /** The service's fields; they are only read after construction. */
  datatype TelegramService = TelegramService(chatId: string, isServer: bool, hasBot: bool)

  datatype TelegramConfig = TelegramConfig(token: string, chatId: string)

  datatype Link = Link(title: string, url: string)

  /** One call of the bot: the chat it goes to and the text. */
  datatype Outgoing = Outgoing(chatId: string, text: string)

  /** What a send operation did: the boolean it resolves to and the message it handed to the bot, if any. */
  datatype SendOutcome = SendOutcome(returned: bool, attempt: Option<Outgoing>)

  /** The constructor: a bot exists only on the server and only when the library was loaded there. */
  function NewTelegramService(config: TelegramConfig, isServer: bool, libraryLoaded: bool): (s: TelegramService)
    ensures s.chatId == config.chatId && s.isServer == isServer
    ensures s.hasBot <==> isServer && libraryLoaded
  {
    TelegramService(config.chatId, isServer, isServer && libraryLoaded)
  }

  predicate Available(s: TelegramService) {
    s.isServer && s.hasBot
  }

  /** `sendMessage`, which is also the sending part of `sendDiarySummary`. */
  function SendMessage(s: TelegramService, message: string, deliver: Outgoing -> bool): (r: SendOutcome)
    ensures !Available(s) ==> !r.returned && r.attempt.None?
    ensures Available(s) ==> r.attempt == Some(Outgoing(s.chatId, message))
    ensures r.returned <==> Available(s) && deliver(Outgoing(s.chatId, message))
  {
    if !Available(s) then SendOutcome(false, None)
    else
      var out := Outgoing(s.chatId, message);
      SendOutcome(deliver(out), Some(out))
  }

  /** `[title](url)` */
  function FormatLink(l: Link): (r: string)
    ensures |r| == |l.title| + |l.url| + 4
    ensures r[0] == '[' && r[|r| - 1] == ')'
    ensures r[1..1 + |l.title|] == l.title && r[|l.title| + 3..|r| - 1] == l.url
  {
    "[" + l.title + "](" + l.url + ")"
  }

  function FormatLinks(links: seq<Link>): (r: seq<string>)
    ensures |r| == |links|
    ensures forall i :: 0 <= i < |links| ==> r[i] == FormatLink(links[i])
  {
    seq(|links|, i requires 0 <= i < |links| => FormatLink(links[i]))
  }

  /** The rendered links, one per line, in input order. */
  function LinksText(links: seq<Link>): string {
    Join(FormatLinks(links), "\n")
  }

  /** The text of the diary notification. */
  function DiaryMessage(title: string, summary: string, links: seq<Link>): string {
    "\n*" + title + "*\n\n" + summary + "\n\n*Links:*\n" + LinksText(links) + "\n"
  }

  /** `sendDiarySummary`: nothing is built or sent unless the bot is available. */
  function SendDiarySummary(s: TelegramService, title: string, summary: string, links: seq<Link>,
                            deliver: Outgoing -> bool): (r: SendOutcome)
    ensures !Available(s) ==> r == SendOutcome(false, None)
    ensures Available(s) ==> r.attempt == Some(Outgoing(s.chatId, DiaryMessage(title, summary, links)))
    ensures r.returned <==> Available(s) && deliver(Outgoing(s.chatId, DiaryMessage(title, summary, links)))
  {
    if !Available(s) then SendOutcome(false, None)
    else SendMessage(s, DiaryMessage(title, summary, links), deliver)
  }

  predicate SingleLine(s: string) {
    '\n' !in s
  }

  /** A link whose title and url hold no line break renders on one line. */
  lemma FormatLinkSingleLine(l: Link)
    requires SingleLine(l.title) && SingleLine(l.url)
    ensures SingleLine(FormatLink(l))
  {
    var r := FormatLink(l);
    forall i | 0 <= i < |r|
      ensures r[i] != '\n'
    {
      if 1 <= i < 1 + |l.title| {
        assert r[i] == l.title[i - 1];
      } else if |l.title| + 3 <= i < |r| - 1 {
        assert r[i] == l.url[i - |l.title| - 3];
      }
    }
  }

  /** The links text splits back into the rendered links, in order. */
  lemma LinksTextLines(links: seq<Link>)
    requires links != []
    requires forall i :: 0 <= i < |links| ==> SingleLine(links[i].title) && SingleLine(links[i].url)
    ensures Split(LinksText(links), "\n") == FormatLinks(links)
  {
    var rendered := FormatLinks(links);
    forall i | 0 <= i < |rendered|
      ensures '\n' !in rendered[i]
    {
      FormatLinkSingleLine(links[i]);
    }
    SplitJoin(rendered, '\n');
  }

  /** Joining two non-empty lists is joining each and putting the separator between. */
  lemma {:induction false} JoinAppend(a: seq<string>, b: seq<string>, sep: string)
    requires a != [] && b != []
    ensures Join(a + b, sep) == Join(a, sep) + sep + Join(b, sep)
  {
    if |a| == 1 {
      assert (a + b)[1..] == b;
    } else {
      assert (a + b)[1..] == a[1..] + b;
      JoinAppend(a[1..], b, sep);
    }
  }

  /** The lines of the notification: a blank line, the bold title, a blank
      line, the summary, a blank line, the bold "Links:" heading, one line per
      link (a single empty line when there are none), and a final empty line. */
  function MessageLines(title: string, summary: string, links: seq<Link>): seq<string> {
    ["", "*" + title + "*", "", summary, "", "*Links:*"]
    + (if links == [] then [""] else FormatLinks(links))
    + [""]
  }

  lemma JoinCons(x: string, xs: seq<string>, sep: string)
    requires xs != []
    ensures Join([x] + xs, sep) == x + sep + Join(xs, sep)
  {
    assert ([x] + xs)[1..] == xs;
  }

  /** Joining six leading lines, a non-empty block and a final empty line. */
  lemma JoinTemplate(a: string, b: string, c: string, d: string, e: string, f: string,
                     body: seq<string>, sep: string)
    requires body != []
    ensures Join([a, b, c, d, e, f] + body + [""], sep)
         == a + sep + (b + sep + (c + sep + (d + sep + (e + sep + (f + sep + (Join(body, sep) + sep + ""))))))
  {
    JoinNested(a, b, c, d, e, f, body, sep);
    NestedIsFlat(a, b, c, d, e, f, body);
  }

  lemma JoinNested(a: string, b: string, c: string, d: string, e: string, f: string,
                   body: seq<string>, sep: string)
    requires body != []
    ensures Join([a] + ([b] + ([c] + ([d] + ([e] + ([f] + (body + [""])))))), sep)
         == a + sep + (b + sep + (c + sep + (d + sep + (e + sep + (f + sep + (Join(body, sep) + sep + ""))))))
  {
    var t7 := body + [""];
    JoinAppend(body, [""], sep);
    var t6 := [f] + t7;
    JoinCons(f, t7, sep);
    var t5 := [e] + t6;
    JoinCons(e, t6, sep);
    var t4 := [d] + t5;
    JoinCons(d, t5, sep);
    var t3 := [c] + t4;
    JoinCons(c, t4, sep);
    var t2 := [b] + t3;
    JoinCons(b, t3, sep);
    JoinCons(a, t2, sep);
  }

  lemma NestedIsFlat(a: string, b: string, c: string, d: string, e: string, f: string, body: seq<string>)
    ensures [a, b, c, d, e, f] + body + [""] == [a] + ([b] + ([c] + ([d] + ([e] + ([f] + (body + [""]))))))
  {
  }

  /** The template is the line structure above joined with line breaks. */
  lemma MessageIsJoinedLines(title: string, summary: string, links: seq<Link>)
    ensures DiaryMessage(title, summary, links) == Join(MessageLines(title, summary, links), "\n")
  {
    var body := if links == [] then [""] else FormatLinks(links);
    var bold, nl, heading := "*" + title + "*", "\n", "*Links:*";
    var text := LinksText(links);
    assert Join(body, nl) == text;
    JoinTemplate("", bold, "", summary, "", heading, body, nl);
    assert MessageLines(title, summary, links) == ["", bold, "", summary, "", heading] + body + [""];
    TemplateText(title, summary, text);
  }

  lemma TemplateText(title: string, summary: string, text: string)
    ensures "\n*" + title + "*\n\n" + summary + "\n\n*Links:*\n" + text + "\n"
         == "" + "\n" + (("*" + title + "*") + "\n" + ("" + "\n" + (summary + "\n" + ("" + "\n" + ("*Links:*" + "\n" + (text + "\n" + ""))))))
  {
  }

  /** So for a one-line title and summary and one-line links, splitting the
      message on line breaks recovers the title, the summary and every link. */
  lemma MessageReadsBack(title: string, summary: string, links: seq<Link>)
    requires SingleLine(title) && SingleLine(summary)
    requires forall i :: 0 <= i < |links| ==> SingleLine(links[i].title) && SingleLine(links[i].url)
    ensures Split(DiaryMessage(title, summary, links), "\n") == MessageLines(title, summary, links)
  {
    MessageIsJoinedLines(title, summary, links);
    var lines := MessageLines(title, summary, links);
    forall i | 0 <= i < |lines|
      ensures '\n' !in lines[i]
    {
      if 6 <= i < |lines| - 1 && links != [] {
        FormatLinkSingleLine(links[i - 6]);
      } else if i == 1 {
        assert lines[1] == "*" + title + "*";
        assert forall j :: 0 <= j < |lines[1]| ==> lines[1][j] == '*' || lines[1][j] == title[j - 1];
      }
    }
    SplitJoin(lines, '\n');
  }
}
